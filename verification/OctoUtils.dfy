/** The client's block lists: merging updated blocks into a list, and duplicating a tree of blocks under
    new IDs. */
module OctoUtils {
  import opened Ids
  import opened Sequences

  datatype Kind = View | Card | BoardKind | Workspace | Other

  /** An ID in a list of IDs; one that cannot be renamed is lost. */
  datatype Ref = To(id: string) | Lost

  datatype Entry = One(ref: Ref) | Column(refs: seq<Ref>)

  datatype Block = Block(id: string, parentId: string, boardId: string, kind: Kind, cardOrder: seq<Ref>,
                         contentOrder: seq<Entry>, createAt: int, updateAt: int, deleteAt: int, body: string)

  ghost predicate Distinct(blocks: seq<Block>) {
    forall i, j :: 0 <= i < j < |blocks| ==> blocks[i].id != blocks[j].id
  }

  predicate Has(blocks: seq<Block>, id: string) {
    exists i :: 0 <= i < |blocks| && blocks[i].id == id
  }

  // ----- merging

  /** The blocks whose IDs are not in the other list. */
  function Except(blocks: seq<Block>, others: seq<Block>): seq<Block> {
    if blocks == [] then []
    else if Has(others, blocks[0].id) then Except(blocks[1..], others)
    else [blocks[0]] + Except(blocks[1..], others)
  }

  function Live(blocks: seq<Block>): seq<Block> {
    if blocks == [] then []
    else if blocks[0].deleteAt == 0 then [blocks[0]] + Live(blocks[1..])
    else Live(blocks[1..])
  }

  function MergeBlocks(blocks: seq<Block>, updated: seq<Block>): seq<Block> {
    Except(blocks, updated) + Live(updated)
  }

  lemma {:induction false} ExceptJoin(a: seq<Block>, b: seq<Block>, others: seq<Block>)
    ensures Except(a + b, others) == Except(a, others) + Except(b, others)
  {
    if a == [] {
      assert a + b == b;
    } else {
      assert (a + b)[1..] == a[1..] + b;
      ExceptJoin(a[1..], b, others);
    }
  }

  lemma {:induction false} LiveJoin(a: seq<Block>, b: seq<Block>)
    ensures Live(a + b) == Live(a) + Live(b)
  {
    if a == [] {
      assert a + b == b;
    } else {
      assert (a + b)[1..] == a[1..] + b;
      LiveJoin(a[1..], b);
    }
  }

  lemma {:induction false} ExceptIn(blocks: seq<Block>, others: seq<Block>, b: Block)
    ensures b in Except(blocks, others) <==> b in blocks && !Has(others, b.id)
  {
    if blocks == [] {
    } else {
      ExceptIn(blocks[1..], others, b);
    }
  }

  lemma {:induction false} LiveIn(blocks: seq<Block>, b: Block)
    ensures b in Live(blocks) <==> b in blocks && b.deleteAt == 0
  {
    if blocks == [] {
    } else {
      LiveIn(blocks[1..], b);
    }
  }

  lemma HasJoin(a: seq<Block>, b: seq<Block>, id: string)
    ensures Has(a + b, id) <==> Has(a, id) || Has(b, id)
  {
    if i :| 0 <= i < |a| && a[i].id == id {
      assert (a + b)[i].id == id;
    }
    if i :| 0 <= i < |b| && b[i].id == id {
      assert (a + b)[|a| + i].id == id;
    }
  }

  lemma {:induction false} ExceptAll(blocks: seq<Block>, others: seq<Block>)
    requires forall b :: b in blocks ==> Has(others, b.id)
    ensures Except(blocks, others) == []
  {
    if blocks == [] {
    } else {
      ExceptAll(blocks[1..], others);
    }
  }

  lemma {:induction false} ExceptTwice(blocks: seq<Block>, u: seq<Block>, v: seq<Block>, w: seq<Block>)
    requires forall b :: b in blocks ==> (Has(w, b.id) <==> Has(u, b.id) || Has(v, b.id))
    ensures Except(Except(blocks, u), v) == Except(blocks, w)
  {
    if blocks == [] {
    } else {
      assert blocks[0] in blocks;
      ExceptTwice(blocks[1..], u, v, w);
      if !Has(u, blocks[0].id) {
        ExceptJoin([blocks[0]], Except(blocks[1..], u), v);
        assert [blocks[0]][1..] == [];
      }
    }
  }

  /** The order of filtering does not matter. */
  lemma {:induction false} ExceptLive(blocks: seq<Block>, others: seq<Block>)
    ensures Except(Live(blocks), others) == Live(Except(blocks, others))
  {
    if blocks == [] {
    } else {
      ExceptLive(blocks[1..], others);
      if blocks[0].deleteAt == 0 {
        ExceptJoin([blocks[0]], Live(blocks[1..]), others);
        assert [blocks[0]][1..] == [];
      }
      if !Has(others, blocks[0].id) {
        LiveJoin([blocks[0]], Except(blocks[1..], others));
        assert [blocks[0]][1..] == [];
      }
    }
  }

  /** For each ID the updated blocks decide: what is live among them, or else what was there. */
  lemma MergeIsRightBiased(blocks: seq<Block>, updated: seq<Block>, b: Block)
    ensures b in MergeBlocks(blocks, updated) <==>
              if Has(updated, b.id) then b in updated && b.deleteAt == 0 else b in blocks
  {
    ExceptIn(blocks, updated, b);
    LiveIn(updated, b);
    if b in updated {
      var i :| 0 <= i < |updated| && updated[i] == b;
      assert updated[i].id == b.id;
    }
  }

  /** Merging one list and then another is one merge, of the blocks of the first that the second does
      not replace, followed by the second. */
  lemma MergeThenMerge(blocks: seq<Block>, u: seq<Block>, v: seq<Block>)
    ensures MergeBlocks(MergeBlocks(blocks, u), v) == MergeBlocks(blocks, Except(u, v) + v)
  {
    var w := Except(u, v) + v;
    calc {
      MergeBlocks(MergeBlocks(blocks, u), v);
      { ExceptJoin(Except(blocks, u), Live(u), v); }
      Except(Except(blocks, u), v) + Except(Live(u), v) + Live(v);
      { HasMerged(u, v); ExceptTwice(blocks, u, v, w); ExceptLive(u, v); }
      Except(blocks, w) + Live(Except(u, v)) + Live(v);
      Except(blocks, w) + (Live(Except(u, v)) + Live(v));
      { LiveJoin(Except(u, v), v); }
      MergeBlocks(blocks, w);
    }
  }

  lemma HasMerged(u: seq<Block>, v: seq<Block>)
    ensures forall id :: Has(Except(u, v) + v, id) <==> Has(u, id) || Has(v, id)
  {
    forall id ensures Has(Except(u, v) + v, id) <==> Has(u, id) || Has(v, id) {
      HasJoin(Except(u, v), v, id);
      if i :| 0 <= i < |u| && u[i].id == id {
        ExceptIn(u, v, u[i]);
      }
      if i :| 0 <= i < |Except(u, v)| && Except(u, v)[i].id == id {
        ExceptIn(u, v, Except(u, v)[i]);
      }
    }
  }

  /** Merging the same list again changes nothing. */
  lemma MergeAgain(blocks: seq<Block>, u: seq<Block>)
    ensures MergeBlocks(MergeBlocks(blocks, u), u) == MergeBlocks(blocks, u)
  {
    MergeThenMerge(blocks, u, u);
    forall b | b in u ensures Has(u, b.id) {
      var i :| 0 <= i < |u| && u[i] == b;
      assert u[i].id == b.id;
    }
    ExceptAll(u, u);
    assert [] + u == u;
  }

  lemma {:induction false} ExceptFilters(blocks: seq<Block>, others: seq<Block>)
    ensures Except(blocks, others) == Filter(blocks, (b: Block) => forall o :: o in others ==> o.id != b.id)
  {
    if blocks == [] {
    } else {
      ExceptFilters(blocks[1..], others);
      assert forall o :: o in others ==> exists i :: 0 <= i < |others| && others[i] == o;
    }
  }

  lemma {:induction false} LiveFilters(blocks: seq<Block>)
    ensures Live(blocks) == Filter(blocks, (b: Block) => b.deleteAt == 0)
  {
    if blocks == [] {
    } else {
      LiveFilters(blocks[1..]);
    }
  }

  /** What is merged, in order: the blocks that no updated one replaces, and then the updated ones that are live. */
  lemma MergeInOrder(blocks: seq<Block>, updated: seq<Block>)
    ensures MergeBlocks(blocks, updated) ==
              Filter(blocks, (b: Block) => forall o :: o in updated ==> o.id != b.id) +
                Filter(updated, (b: Block) => b.deleteAt == 0)
  {
    ExceptFilters(blocks, updated);
    LiveFilters(updated);
  }

  // ----- duplicating

  function KindChar(kind: Kind): char {
    match kind case View => 'v' case Card => 'c' case BoardKind => 'b' case Workspace => 'w' case Other => '7'
  }

  /** New IDs by old IDs; of several blocks with one ID the last counts. */
  function IdMap(blocks: seq<Block>, ids: seq<string>): map<string, string>
    requires |blocks| == |ids|
  {
    if blocks == [] then map[]
    else IdMap(blocks[..|blocks| - 1], ids[..|ids| - 1])[blocks[|blocks| - 1].id := ids[|ids| - 1]]
  }

  function RenameRef(idMap: map<string, string>, r: Ref): Ref {
    if r.To? && r.id in idMap then To(idMap[r.id]) else Lost
  }

  function RenameRefs(idMap: map<string, string>, rs: seq<Ref>): seq<Ref> {
    seq(|rs|, i requires 0 <= i < |rs| => RenameRef(idMap, rs[i]))
  }

  function RenameEntry(idMap: map<string, string>, e: Entry): Entry {
    match e case One(r) => One(RenameRef(idMap, r)) case Column(rs) => Column(RenameRefs(idMap, rs))
  }

  function RenameEntries(idMap: map<string, string>, es: seq<Entry>): seq<Entry> {
    seq(|es|, i requires 0 <= i < |es| => RenameEntry(idMap, es[i]))
  }

  function Copied(b: Block, id: string, now: int): Block {
    b.(id := id, createAt := now, updateAt := now)
  }

  /** A copy with its links renamed; `boardId` is given if the whole board is duplicated. */
  function Relinked(b: Block, idMap: map<string, string>, sourceId: string, boardId: string): Block {
    b.(parentId := if b.id != sourceId && b.parentId != "" && b.parentId in idMap then idMap[b.parentId]
                   else b.parentId,
       boardId := if boardId != "" then boardId else b.boardId,
       cardOrder := if b.kind.View? then RenameRefs(idMap, b.cardOrder) else b.cardOrder,
       contentOrder := if b.kind.Card? then RenameEntries(idMap, b.contentOrder) else b.contentOrder)
  }

  function First(blocks: seq<Block>, id: string): (b: Block)
    requires Has(blocks, id)
    ensures b in blocks && b.id == id
  {
    if blocks[0].id == id then blocks[0] else First(blocks[1..], id)
  }

  /** Fresh IDs. */
  ghost predicate Drawn(ids: seq<string>, used: set<string>, usedNow: set<string>) {
    && (forall i, j :: 0 <= i < j < |ids| ==> ids[i] != ids[j])
    && (forall i :: 0 <= i < |ids| ==> ids[i] != "" && ids[i] !in used && ids[i] in usedNow)
  }

  /** A copy is made now, of the same kind, and its ID says which; only a card's content and the order of a
      view's cards are renamed. */
  ghost predicate IsCopy(copy: Block, b: Block, now: int) {
    && copy.kind == b.kind && copy.body == b.body && copy.deleteAt == b.deleteAt
    && copy.createAt == copy.updateAt == now
    && (b.kind == Card || copy.contentOrder == b.contentOrder) && (b.kind == View || copy.cardOrder == b.cardOrder)
    && SaysKind(copy.id, b.kind)
  }

  ghost predicate SaysKind(id: string, kind: Kind) {
    && id != ""
    && id[0] == if kind == Workspace then 'w' else if kind == BoardKind then 'b' else if kind == Card then 'c'
                else if kind == View then 'v' else '7'
  }

  ghost predicate AreCopies(copies: seq<Block>, blocks: seq<Block>, now: int) {
    |copies| == |blocks| && forall i :: 0 <= i < |blocks| ==> IsCopy(copies[i], blocks[i], now)
  }

  ghost predicate CopiedAll(newBlocks: seq<Block>, blocks: seq<Block>, ids: seq<string>, now: int) {
    && |newBlocks| == |ids| == |blocks|
    && forall i :: 0 <= i < |blocks| ==>
         newBlocks[i] == Copied(blocks[i], ids[i], now) && SaysKind(ids[i], blocks[i].kind)
  }

  lemma DrawnPush(ids: seq<string>, used: set<string>, usedNow: set<string>, id: string)
    requires Drawn(ids, used, usedNow) && used <= usedNow && id != "" && id !in usedNow
    ensures Drawn(ids + [id], used, usedNow + {id})
  {
  }

  lemma CopiedPush(newBlocks: seq<Block>, blocks: seq<Block>, ids: seq<string>, now: int, b: Block, id: string)
    requires CopiedAll(newBlocks, blocks, ids, now) && SaysKind(id, b.kind)
    ensures CopiedAll(newBlocks + [Copied(b, id, now)], blocks + [b], ids + [id], now)
    ensures IdMap(blocks + [b], ids + [id]) == IdMap(blocks, ids)[b.id := id]
  {
    assert (blocks + [b])[..|blocks|] == blocks && (ids + [id])[..|ids|] == ids;
  }

  method CopyBlocks(blocks: seq<Block>, now: int, supply: IdSupply)
    returns (newBlocks: seq<Block>, idMap: map<string, string>, ghost ids: seq<string>)
    requires supply.Valid()
    modifies supply
    ensures supply.Valid() && Drawn(ids, old(supply.used), supply.used)
    ensures CopiedAll(newBlocks, blocks, ids, now) && AreCopies(newBlocks, blocks, now)
    ensures idMap == IdMap(blocks, ids)
  {
    newBlocks, idMap, ids := [], map[], [];
    for i := 0 to |blocks|
      invariant supply.Valid() && old(supply.used) <= supply.used && Drawn(ids, old(supply.used), supply.used)
      invariant CopiedAll(newBlocks, blocks[..i], ids, now)
      invariant idMap == IdMap(blocks[..i], ids)
    {
      assert blocks[..i + 1] == blocks[..i] + [blocks[i]];
      ghost var before := supply.used;
      var id := supply.NewID(KindChar(blocks[i].kind));
      DrawnPush(ids, old(supply.used), before, id);
      CopiedPush(newBlocks, blocks[..i], ids, now, blocks[i], id);
      newBlocks := newBlocks + [Copied(blocks[i], id, now)];
      idMap := idMap[blocks[i].id := id];
      ids := ids + [id];
    }
    assert blocks[..|blocks|] == blocks;
  }

  ghost predicate RelinkedAll(newBlocks: seq<Block>, copies: seq<Block>, idMap: map<string, string>, sourceId: string,
                              boardId: string)
  {
    |newBlocks| == |copies| &&
    forall i :: 0 <= i < |copies| ==> newBlocks[i] == Relinked(copies[i], idMap, sourceId, boardId)
  }

  lemma RelinkedAreCopies(newBlocks: seq<Block>, copies: seq<Block>, idMap: map<string, string>, sourceId: string,
                          boardId: string, blocks: seq<Block>, now: int)
    requires RelinkedAll(newBlocks, copies, idMap, sourceId, boardId) && AreCopies(copies, blocks, now)
    ensures AreCopies(newBlocks, blocks, now)
  {
    forall i | 0 <= i < |blocks| ensures IsCopy(newBlocks[i], blocks[i], now) {
      assert newBlocks[i] == Relinked(copies[i], idMap, sourceId, boardId);
    }
  }

  method RelinkAll(copies: seq<Block>, idMap: map<string, string>, sourceId: string, boardId: string)
    returns (newBlocks: seq<Block>)
    ensures RelinkedAll(newBlocks, copies, idMap, sourceId, boardId)
  {
    newBlocks := copies;
    for i := 0 to |copies|
      invariant |newBlocks| == |copies|
      invariant forall k :: 0 <= k < i ==> newBlocks[k] == Relinked(copies[k], idMap, sourceId, boardId)
      invariant forall k :: i <= k < |copies| ==> newBlocks[k] == copies[k]
    {
      var b := newBlocks[i];
      if b.id != sourceId && b.parentId != "" {
        b := b.(parentId := if b.parentId in idMap then idMap[b.parentId] else b.parentId);
      }
      if boardId != "" {
        b := b.(boardId := boardId);
      }
      if b.kind.View? {
        b := b.(cardOrder := RenameRefs(idMap, b.cardOrder));
      }
      if b.kind.Card? {
        b := b.(contentOrder := RenameEntries(idMap, b.contentOrder));
      }
      newBlocks := newBlocks[i := b];
    }
  }

  /** A duplicate: every block copied under a fresh ID, with its links renamed. */
  ghost predicate IsDuplicate(newBlocks: seq<Block>, idMap: map<string, string>, blocks: seq<Block>, source: string,
                              now: int, ids: seq<string>, used: set<string>)
  {
    && |newBlocks| == |ids| == |blocks| && (exists after :: Drawn(ids, used, after))
    && idMap == IdMap(blocks, ids) && Has(blocks, source) && source in idMap
    && var boardId := if First(blocks, source).boardId == source then idMap[source] else "";
       forall i :: 0 <= i < |blocks| ==> newBlocks[i] == Relinked(Copied(blocks[i], ids[i], now), idMap,
         idMap[source], boardId)
  }

  lemma {:induction false} IdMapHas(blocks: seq<Block>, ids: seq<string>, id: string)
    requires |blocks| == |ids|
    ensures id in IdMap(blocks, ids) <==> Has(blocks, id)
    ensures id in IdMap(blocks, ids) ==> IdMap(blocks, ids)[id] in ids
  {
    if blocks == [] {
    } else {
      var n := |blocks| - 1;
      IdMapHas(blocks[..n], ids[..n], id);
      assert blocks == blocks[..n] + [blocks[n]];
      HasJoin(blocks[..n], [blocks[n]], id);
      assert [blocks[n]][0].id == blocks[n].id;
    }
  }

  method DuplicateBlockTree(blocks: seq<Block>, sourceBlockId: string, now: int, supply: IdSupply)
    returns (newBlocks: seq<Block>, newSourceBlock: Block, idMap: map<string, string>, ghost ids: seq<string>)
    requires supply.Valid() && Has(blocks, sourceBlockId)
    modifies supply
    ensures supply.Valid() && IsDuplicate(newBlocks, idMap, blocks, sourceBlockId, now, ids, old(supply.used))
    ensures AreCopies(newBlocks, blocks, now)
    ensures newSourceBlock in newBlocks && newSourceBlock.id == idMap[sourceBlockId]
  {
    var copies;
    copies, idMap, ids := CopyBlocks(blocks, now, supply);
    IdMapHas(blocks, ids, sourceBlockId);
    var newSourceBlockId := idMap[sourceBlockId];
    var sourceBlock := First(blocks, sourceBlockId);
    var newBoardId := "";
    ghost var at :| 0 <= at < |ids| && ids[at] == newSourceBlockId;
    assert copies[at].id == newSourceBlockId;
    if sourceBlock.boardId == sourceBlock.id {
      newBoardId := First(copies, newSourceBlockId).id;
    }
    newBlocks := RelinkAll(copies, idMap, newSourceBlockId, newBoardId);
    RelinkedAreCopies(newBlocks, copies, idMap, newSourceBlockId, newBoardId, blocks, now);
    assert newBlocks[at] == Relinked(copies[at], idMap, newSourceBlockId, newBoardId);
    newSourceBlock := First(newBlocks, newSourceBlockId);
  }

  /** With distinct IDs the map takes each block's ID to that of its copy. */
  lemma {:induction false} IdMapAt(blocks: seq<Block>, ids: seq<string>, i: nat)
    requires |blocks| == |ids| && Distinct(blocks) && i < |blocks|
    ensures blocks[i].id in IdMap(blocks, ids)
    ensures IdMap(blocks, ids)[blocks[i].id] == ids[i]
  {
    var n := |blocks| - 1;
    if i == n {
    } else {
      IdMapAt(blocks[..n], ids[..n], i);
    }
  }

  /** Every ID in the blocks has been seen. */
  ghost predicate AllSeen(blocks: seq<Block>, used: set<string>) {
    forall i :: 0 <= i < |blocks| ==> blocks[i].id in used && blocks[i].parentId in used
  }

  /** The map is injective: an ID is renamed to that of a copy exactly if it is that block's. */
  lemma RenamedToIff(blocks: seq<Block>, ids: seq<string>, used: set<string>, after: set<string>, j: nat, id: string)
    requires |blocks| == |ids| && Distinct(blocks) && Drawn(ids, used, after) && j < |blocks|
    ensures id in IdMap(blocks, ids) ==> (IdMap(blocks, ids)[id] == ids[j] <==> id == blocks[j].id)
    ensures RenameRef(IdMap(blocks, ids), To(id)) == To(ids[j]) <==> id == blocks[j].id
  {
    IdMapAt(blocks, ids, j);
    IdMapHas(blocks, ids, id);
    if id in IdMap(blocks, ids) {
      var i :| 0 <= i < |blocks| && blocks[i].id == id;
      IdMapAt(blocks, ids, i);
    }
  }

  /** The duplicate has the shape of the original: a copy's parent is another copy exactly if the
      originals are so related, except that the copy of the source keeps its parent, and what is outside
      stays the parent; and the copies all belong to the new root exactly if the source was its own board. */
  lemma DuplicateKeepsTree(newBlocks: seq<Block>, idMap: map<string, string>, blocks: seq<Block>, source: string,
                           now: int, ids: seq<string>, used: set<string>, i: nat, j: nat)
    requires IsDuplicate(newBlocks, idMap, blocks, source, now, ids, used)
    requires Distinct(blocks) && AllSeen(blocks, used) && "" !in idMap && i < |blocks| && j < |blocks|
    ensures blocks[i].id != source ==> (newBlocks[i].parentId == newBlocks[j].id <==>
              blocks[i].parentId == blocks[j].id)
    ensures blocks[i].id == source || !Has(blocks, blocks[i].parentId) ==> newBlocks[i].parentId == blocks[i].parentId
    ensures newBlocks[i].boardId == if First(blocks, source).boardId == source then idMap[source] else blocks[i].boardId
    ensures i != j ==> newBlocks[i].id != newBlocks[j].id
    ensures newBlocks[i].id !in used
  {
    var after :| Drawn(ids, used, after);
    IdMapAt(blocks, ids, i);
    IdMapAt(blocks, ids, j);
    IdMapHas(blocks, ids, source);
    IdMapHas(blocks, ids, blocks[i].parentId);
    RenamedToIff(blocks, ids, used, after, j, blocks[i].parentId);
    RenamedToIff(blocks, ids, used, after, i, source);
  }

  /** The copy of a card lists another copy in the same place exactly if the card lists the original,
      and a place is lost exactly if what it names is not duplicated.  The same for a view's cards. */
  lemma DuplicateKeepsOrder(newBlocks: seq<Block>, idMap: map<string, string>, blocks: seq<Block>, source: string,
                            now: int, ids: seq<string>, used: set<string>, i: nat, j: nat)
    requires IsDuplicate(newBlocks, idMap, blocks, source, now, ids, used)
    requires Distinct(blocks) && i < |blocks| && j < |blocks|
    ensures blocks[i].kind.Card? ==>
              && |newBlocks[i].contentOrder| == |blocks[i].contentOrder|
              && forall k :: 0 <= k < |blocks[i].contentOrder| ==>
                   SameEntry(newBlocks[i].contentOrder[k], blocks[i].contentOrder[k], newBlocks[j].id, blocks,
                     blocks[j].id)
    ensures blocks[i].kind.View? ==> SameRefs(newBlocks[i].cardOrder, blocks[i].cardOrder, newBlocks[j].id, blocks,
              blocks[j].id)
  {
    var after :| Drawn(ids, used, after);
    IdMapLeads(blocks, ids, used, after, j);
    if blocks[i].kind.View? {
      RefsKept(idMap, blocks, blocks[j].id, ids[j], blocks[i].cardOrder);
    }
    if blocks[i].kind.Card? {
      forall k | 0 <= k < |blocks[i].contentOrder|
        ensures SameEntry(newBlocks[i].contentOrder[k], blocks[i].contentOrder[k], ids[j], blocks, blocks[j].id)
      {
        EntryKept(idMap, blocks, blocks[j].id, ids[j], blocks[i].contentOrder[k]);
      }
    }
  }

  /** The map leads to the new ID from the old one only, and from nowhere exactly what was not duplicated. */
  ghost predicate LeadsTo(idMap: map<string, string>, blocks: seq<Block>, oldID: string, newID: string) {
    forall id :: RefFollows(idMap, blocks, oldID, newID, To(id))
  }

  ghost predicate RefFollows(idMap: map<string, string>, blocks: seq<Block>, oldID: string, newID: string, r: Ref) {
    && (RenameRef(idMap, r) == To(newID) <==> r == To(oldID))
    && (RenameRef(idMap, r) == Lost <==> !(r.To? && Has(blocks, r.id)))
  }

  lemma IdMapLeads(blocks: seq<Block>, ids: seq<string>, used: set<string>, after: set<string>, j: nat)
    requires |blocks| == |ids| && Distinct(blocks) && Drawn(ids, used, after) && j < |blocks|
    ensures LeadsTo(IdMap(blocks, ids), blocks, blocks[j].id, ids[j])
  {
    forall id ensures RefFollows(IdMap(blocks, ids), blocks, blocks[j].id, ids[j], To(id)) {
      RenamedToIff(blocks, ids, used, after, j, id);
      IdMapHas(blocks, ids, id);
    }
  }

  lemma RefsKept(idMap: map<string, string>, blocks: seq<Block>, oldID: string, newID: string, rs: seq<Ref>)
    requires LeadsTo(idMap, blocks, oldID, newID)
    ensures SameRefs(RenameRefs(idMap, rs), rs, newID, blocks, oldID)
  {
    assert forall k :: 0 <= k < |rs| && rs[k].To? ==> RefFollows(idMap, blocks, oldID, newID, To(rs[k].id));
  }

  lemma EntryKept(idMap: map<string, string>, blocks: seq<Block>, oldID: string, newID: string, e: Entry)
    requires LeadsTo(idMap, blocks, oldID, newID)
    ensures SameEntry(RenameEntry(idMap, e), e, newID, blocks, oldID)
  {
    match e
    case One(r) =>
      RefsKept(idMap, blocks, oldID, newID, [r]);
      assert RenameRefs(idMap, [r])[0] == RenameRef(idMap, r);
      assert [RenameRef(idMap, r)] == RenameRefs(idMap, [r]);
    case Column(rs) => RefsKept(idMap, blocks, oldID, newID, rs);
  }

  /** The lists name the two IDs in the same places, and nothing that was duplicated is lost. */
  ghost predicate SameRefs(now: seq<Ref>, was: seq<Ref>, newID: string, blocks: seq<Block>, oldID: string) {
    && |now| == |was|
    && forall k :: 0 <= k < |was| ==>
         && (now[k] == To(newID) <==> was[k] == To(oldID))
         && (now[k] == Lost <==> !(was[k].To? && Has(blocks, was[k].id)))
  }

  ghost predicate SameEntry(now: Entry, was: Entry, newID: string, blocks: seq<Block>, oldID: string) {
    && (now.One? <==> was.One?)
    && if was.One? then SameRefs([now.ref], [was.ref], newID, blocks, oldID)
       else SameRefs(now.refs, was.refs, newID, blocks, oldID)
  }
}
