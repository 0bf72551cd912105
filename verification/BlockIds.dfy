/** Re-issuing block IDs: a list of blocks gets new IDs, and every reference between the blocks is
    rewritten so that the tree keeps its shape. */
module BlockIds {
  import opened Ids
  import opened Sequences

  /** The block types the code knows by name, and any other string. */
  datatype BlockType =
    | TypeBoard | TypeCard | TypeView | TypeText | TypeCheckbox
    | TypeComment | TypeImage | TypeAttachment | TypeDivider
    | TypeOther(name: string)

  /** An element of an order list: a block ID, a column of block IDs, or anything else JSON allows. */
  datatype Entry = Id(id: string) | Column(ids: seq<string>) | Junk

  /** A value of the `Fields` map, by the types the code tests for. */
  datatype Field = Absent | Order(entries: seq<Entry>) | Text(text: string) | Other

  /** The parts of a block or board that hold no IDs: who changed it last and when, the name of the
      uploaded file an image or attachment shows, if it has one, and all the rest. */
  datatype Meta = Meta(modifiedBy: string, updateAt: int, file: FileRef, body: string)
  datatype FileRef = NoFile | File(name: string)

  /** The contents of a block. */
  datatype BlockData = BlockData(
    id: string, kind: BlockType, boardID: string, parentID: string,
    contentOrder: Field, cardOrder: Field, defaultTemplateId: Field, meta: Meta)

  class Block {
    var id: string
    const kind: BlockType
    var boardID: string
    var parentID: string
    var contentOrder: Field
    var cardOrder: Field
    var defaultTemplateId: Field
    const meta: Meta

    constructor (data: BlockData)
      ensures Data() == data
    {
      id, kind, boardID, parentID := data.id, data.kind, data.boardID, data.parentID;
      contentOrder, cardOrder, defaultTemplateId := data.contentOrder, data.cardOrder, data.defaultTemplateId;
      meta := data.meta;
    }

    ghost function Data(): BlockData
      reads this
    {
      BlockData(id, kind, boardID, parentID, contentOrder, cardOrder, defaultTemplateId, meta)
    }
  }

  /** The ID prefix for a block type. */
  function IdKind(kind: BlockType): char {
    match kind
    case TypeBoard => 'b'
    case TypeCard => 'c'
    case TypeView => 'v'
    case TypeText | TypeCheckbox | TypeComment | TypeDivider => 'a'
    case TypeImage | TypeAttachment => 'i'
    case TypeOther(_) => '7'
  }

  // ----- references

  function EntryIds(e: Entry): set<string> {
    match e
    case Id(id) => {id}
    case Column(ids) => set x | x in ids
    case Junk => {}
  }

  function EntriesIds(es: seq<Entry>): set<string> {
    set e, x | e in es && x in EntryIds(e) :: x
  }

  function OrderIds(f: Field): set<string> {
    if f.Order? then EntriesIds(f.entries) else {}
  }

  function TextIds(f: Field): set<string> {
    if f.Text? then {f.text} else {}
  }

  /** The IDs a block refers to, as the code collects them: `cardOrder` does not count, and an
      ill-typed `contentOrder` hides the block's `defaultTemplateId`. */
  function Refs(b: BlockData): set<string> {
    {b.boardID, b.parentID} + OrderIds(b.contentOrder) +
    if b.contentOrder.Absent? || b.contentOrder.Order? then TextIds(b.defaultTemplateId) else {}
  }

  ghost function AllRefs(bs: seq<BlockData>): set<string> {
    set b, x | b in bs && x in Refs(b) :: x
  }

  ghost function BlockIDs(bs: seq<BlockData>): set<string> {
    set b | b in bs :: b.id
  }

  /** Every ID that occurs in a block. */
  function Mentions(b: BlockData): set<string> {
    {b.id, b.boardID, b.parentID} + OrderIds(b.contentOrder) + OrderIds(b.cardOrder) + TextIds(b.defaultTemplateId)
  }

  ghost function Mentioned(bs: seq<BlockData>): set<string> {
    set b, x | b in bs && x in Mentions(b) :: x
  }

  lemma MentionedAt(bs: seq<BlockData>, i: nat)
    requires i < |bs|
    ensures Mentions(bs[i]) <= Mentioned(bs)
    ensures Refs(bs[i]) <= AllRefs(bs)
    ensures bs[i].id in BlockIDs(bs)
  {
    assert bs[i] in bs;
  }

  // ----- renaming

  function Rename(ren: map<string, string>, id: string): string {
    if id in ren then ren[id] else id
  }

  function RenameIds(ren: map<string, string>, ids: seq<string>): (r: seq<string>)
    ensures |r| == |ids|
  {
    seq(|ids|, i requires 0 <= i < |ids| => Rename(ren, ids[i]))
  }

  function RenameEntry(ren: map<string, string>, e: Entry): Entry {
    match e
    case Id(id) => Id(Rename(ren, id))
    case Column(ids) => Column(RenameIds(ren, ids))
    case Junk => Junk
  }

  function RenameEntries(ren: map<string, string>, es: seq<Entry>): (r: seq<Entry>)
    ensures |r| == |es|
  {
    seq(|es|, i requires 0 <= i < |es| => RenameEntry(ren, es[i]))
  }

  function RenameOrder(ren: map<string, string>, f: Field): Field {
    if f.Order? then Order(RenameEntries(ren, f.entries)) else f
  }

  function RenameText(ren: map<string, string>, f: Field): Field {
    if f.Text? then Text(Rename(ren, f.text)) else f
  }

  ghost predicate Injective(ren: map<string, string>) {
    forall x, y :: x in ren && y in ren && ren[x] == ren[y] ==> x == y
  }

  ghost predicate Distinct(bs: seq<BlockData>) {
    forall i, j :: 0 <= i < j < |bs| ==> bs[i].id != bs[j].id
  }

  /** What GenerateBlockIDs does, block by block: `ren` holds the new ID of each referenced block,
      a block nobody refers to draws an ID of its own, and all links go through `ren`. */
  ghost predicate Reissued(olds: seq<BlockData>, news: seq<BlockData>, ren: map<string, string>, used: set<string>) {
    && |news| == |olds|
    && ren.Keys == BlockIDs(olds) * AllRefs(olds)
    && Injective(ren)
    && (forall x :: x in ren ==> ren[x] !in used)
    && (forall i :: 0 <= i < |olds| ==> IdReissued(olds[i], news[i].id, ren, used))
    && (forall i, j :: 0 <= i < j < |olds| && news[i].id == news[j].id ==>
         olds[i].id == olds[j].id && olds[i].id in ren)
    && (forall i :: 0 <= i < |olds| ==> news[i] == LinksRenamed(olds[i], news[i].id, ren))
  }

  ghost predicate IdReissued(was: BlockData, newID: string, ren: map<string, string>, used: set<string>) {
    if was.id in ren then newID == ren[was.id] else newID !in used && newID !in ren.Values
  }

  ghost function LinksRenamed(b: BlockData, newID: string, ren: map<string, string>): BlockData {
    b.(id := newID,
       boardID := Rename(ren, b.boardID),
       parentID := Rename(ren, b.parentID),
       contentOrder := RenameOrder(ren, b.contentOrder),
       cardOrder := RenameOrder(ren, b.cardOrder),
       defaultTemplateId := RenameText(ren, b.defaultTemplateId))
  }

  // ----- the algorithm

  ghost function Contents(blocks: seq<Block>): (r: seq<BlockData>)
    reads blocks
    ensures |r| == |blocks|
  {
    seq(|blocks|, i requires 0 <= i < |blocks| reads blocks => blocks[i].Data())
  }

  /** The block type recorded for an ID: that of the first block carrying it. */
  ghost function FirstKind(bs: seq<BlockData>, id: string): BlockType
    requires id in BlockIDs(bs)
  {
    if bs[0].id == id then bs[0].kind else FirstKind(bs[1..], id)
  }

  lemma {:induction false} FirstKindPush(bs: seq<BlockData>, b: BlockData, id: string)
    requires id in BlockIDs(bs + [b])
    ensures FirstKind(bs + [b], id) == if id in BlockIDs(bs) then FirstKind(bs, id) else b.kind
  {
    if bs != [] && bs[0].id != id {
      assert (bs + [b])[1..] == bs[1..] + [b];
      assert forall c :: c in bs + [b] && c.id == id ==> c in bs[1..] + [b];
      assert id in BlockIDs(bs[1..] + [b]);
      assert id in BlockIDs(bs) <==> id in BlockIDs(bs[1..]);
      FirstKindPush(bs[1..], b, id);
    } else if bs == [] {
      assert bs + [b] == [b];
    }
  }

  lemma EntriesPush(es: seq<Entry>, k: nat)
    requires k < |es|
    ensures EntriesIds(es[..k + 1]) == EntriesIds(es[..k]) + EntryIds(es[k])
  {
    assert es[..k + 1] == es[..k] + [es[k]];
  }

  lemma RefsPush(bs: seq<BlockData>, k: nat)
    requires k < |bs|
    ensures bs[..k + 1] == bs[..k] + [bs[k]]
    ensures AllRefs(bs[..k + 1]) == AllRefs(bs[..k]) + Refs(bs[k])
    ensures BlockIDs(bs[..k + 1]) == BlockIDs(bs[..k]) + {bs[k].id}
  {
    assert bs[..k + 1] == bs[..k] + [bs[k]];
  }

  /** The IDs of an order list, columns included. */
  method OrderReferences(entries: seq<Entry>) returns (refs: set<string>)
    ensures refs == EntriesIds(entries)
  {
    refs := {};
    for k := 0 to |entries|
      invariant refs == EntriesIds(entries[..k])
    {
      EntriesPush(entries, k);
      match entries[k]
      case Column(column) =>
        ghost var before := refs;
        for c := 0 to |column|
          invariant refs == before + set x | x in column[..c]
        {
          assert column[..c + 1] == column[..c] + [column[c]];
          refs := refs + {column[c]};
        }
        assert column[..|column|] == column;
      case Id(id) => refs := refs + {id};
      case Junk =>
    }
    assert entries[..|entries|] == entries;
  }

  /** The IDs one block refers to. */
  method BlockReferences(block: Block) returns (refs: set<string>)
    ensures refs == Refs(block.Data())
  {
    refs := {block.boardID} + {block.parentID};
    if !block.contentOrder.Absent? {
      if !block.contentOrder.Order? {
        return;
      }
      var order := OrderReferences(block.contentOrder.entries);
      refs := refs + order;
    }
    if block.defaultTemplateId.Text? {
      refs := refs + {block.defaultTemplateId.text};
    }
  }

  /** The type recorded for each ID of a list of blocks: that of the first block carrying it. */
  ghost predicate RecordsKinds(blockIDs: map<string, BlockType>, bs: seq<BlockData>) {
    blockIDs.Keys == BlockIDs(bs) && forall id :: id in blockIDs ==> blockIDs[id] == FirstKind(bs, id)
  }

  lemma RecordNext(blockIDs: map<string, BlockType>, bs: seq<BlockData>, k: nat)
    requires k < |bs| && RecordsKinds(blockIDs, bs[..k])
    ensures RecordsKinds(if bs[k].id in blockIDs then blockIDs else blockIDs[bs[k].id := bs[k].kind], bs[..k + 1])
  {
    RefsPush(bs, k);
    forall id | id in BlockIDs(bs[..k + 1])
      ensures FirstKind(bs[..k + 1], id) == if id in blockIDs then blockIDs[id] else bs[k].kind
    {
      FirstKindPush(bs[..k], bs[k], id);
    }
  }

  /** First pass: the type of every block ID, and the IDs referred to. */
  method CollectReferences(blocks: seq<Block>) returns (blockIDs: map<string, BlockType>, referenceIDs: set<string>)
    ensures RecordsKinds(blockIDs, Contents(blocks))
    ensures referenceIDs == AllRefs(Contents(blocks))
  {
    blockIDs, referenceIDs := map[], {};
    ghost var bs := Contents(blocks);
    for i := 0 to |blocks|
      invariant RecordsKinds(blockIDs, bs[..i])
      invariant referenceIDs == AllRefs(bs[..i])
    {
      var block := blocks[i];
      RecordNext(blockIDs, bs, i);
      RefsPush(bs, i);
      if block.id !in blockIDs {
        blockIDs := blockIDs[block.id := block.kind];
      }
      var refs := BlockReferences(block);
      referenceIDs := referenceIDs + refs;
    }
    assert bs[..|blocks|] == bs;
  }

  /** Second pass: one new ID for every block ID that is referred to. */
  method DrawNewIDs(blockIDs: map<string, BlockType>, referenceIDs: set<string>, ids: IdSupply)
    returns (newIDs: map<string, string>)
    requires ids.Valid()
    modifies ids
    ensures ids.Valid() && ids.used == old(ids.used) + newIDs.Values
    ensures newIDs.Keys == blockIDs.Keys * referenceIDs
    ensures Injective(newIDs) && forall id :: id in newIDs ==> newIDs[id] !in old(ids.used)
    ensures forall id :: id in newIDs ==> KindMatches(newIDs[id], id, blockIDs)
  {
    newIDs := map[];
    var todo := blockIDs.Keys;
    while todo != {}
      invariant todo <= blockIDs.Keys
      invariant newIDs.Keys == (blockIDs.Keys - todo) * referenceIDs
      invariant ids.Valid() && ids.used == old(ids.used) + newIDs.Values
      invariant Injective(newIDs) && forall id :: id in newIDs ==> newIDs[id] !in old(ids.used)
      invariant forall id :: id in newIDs ==> KindMatches(newIDs[id], id, blockIDs)
      decreases todo
    {
      var id :| id in todo;
      todo := todo - {id};
      // of all the references at most one equals the ID
      if id in referenceIDs {
        var newID := ids.NewID(IdKind(blockIDs[id]));
        ghost var before := newIDs;
        newIDs := newIDs[id := newID];
        assert newIDs.Values == before.Values + {newID} by {
          assert forall x :: x in before ==> x in newIDs && newIDs[x] == before[x];
          assert id in newIDs;
        }
      }
    }
  }

  /** An ID has its new one, and any other text is as it was. */
  predicate Mapped(newIDs: map<string, string>, was: string, now: string) {
    now == if was in newIDs then newIDs[was] else was
  }

  /** The same place of an order list: a single ID, a column of as many, or neither, each ID mapped. */
  predicate PlaceMapped(newIDs: map<string, string>, was: Entry, now: Entry) {
    match was
    case Id(x) => now.Id? && Mapped(newIDs, x, now.id)
    case Column(xs) =>
      now.Column? && |now.ids| == |xs| && forall c :: 0 <= c < |xs| ==> Mapped(newIDs, xs[c], now.ids[c])
    case Junk => now.Junk?
  }

  /** Rewrites an order list element by element. */
  method FixFieldIDs(entries: seq<Entry>, newIDs: map<string, string>) returns (field: seq<Entry>)
    ensures field == RenameEntries(newIDs, entries)
    ensures |field| == |entries| && forall j :: 0 <= j < |entries| ==> PlaceMapped(newIDs, entries[j], field[j])
  {
    field := entries;
    for j := 0 to |entries|
      invariant |field| == |entries|
      invariant field[..j] == RenameEntries(newIDs, entries)[..j] && field[j..] == entries[j..]
    {
      assert field[j] == entries[j];
      match field[j]
      case Id(id) =>
        field := field[j := Id(Rename(newIDs, id))];
      case Column(v) =>
        var subOrder := v;
        for k := 0 to |v|
          invariant |subOrder| == |v|
          invariant subOrder[..k] == RenameIds(newIDs, v)[..k] && subOrder[k..] == v[k..]
        {
          assert subOrder[k] == v[k];
          subOrder := subOrder[k := Rename(newIDs, v[k])];
        }
        assert subOrder == RenameIds(newIDs, v);
        field := field[j := Column(subOrder)];
      case Junk =>
    }
  }

  /** Third pass, one block: its links. */
  method FixLinks(block: Block, newIDs: map<string, string>)
    modifies block
    ensures block.Data() == LinksRenamed(old(block.Data()), old(block.id), newIDs)
  {
    block.boardID := Rename(newIDs, block.boardID);
    block.parentID := Rename(newIDs, block.parentID);
    if block.contentOrder.Order? {
      var field := FixFieldIDs(block.contentOrder.entries, newIDs);
      block.contentOrder := Order(field);
    }
    if block.cardOrder.Order? {
      var field := FixFieldIDs(block.cardOrder.entries, newIDs);
      block.cardOrder := Order(field);
    }
    if block.defaultTemplateId.Text? {
      block.defaultTemplateId := Text(Rename(newIDs, block.defaultTemplateId.text));
    }
  }

  /** Third pass, one block: its own ID, then its links. */
  method ReissueBlock(block: Block, newIDs: map<string, string>, kind: BlockType, ids: IdSupply)
    requires ids.Valid() && newIDs.Values <= ids.used
    modifies block, ids
    ensures ids.Valid() && ids.used == old(ids.used) + {block.id}
    ensures block.Data() == LinksRenamed(old(block.Data()), block.id, newIDs)
    ensures IdReissued(old(block.Data()), block.id, newIDs, old(ids.used))
    ensures old(block.id) !in newIDs ==> block.id != "" && block.id[0] == IdKind(kind)
  {
    if block.id in newIDs {
      block.id := newIDs[block.id];
    } else {
      block.id := ids.NewID(IdKind(kind));
    }
    FixLinks(block, newIDs);
  }

  /** The new ID is prefixed for the type recorded for the old one. */
  ghost predicate KindMatches(newID: string, oldID: string, blockIDs: map<string, BlockType>) {
    oldID in blockIDs && newID != "" && newID[0] == IdKind(blockIDs[oldID])
  }

  /** The IDs planned with are old, and the planned ones are not. */
  ghost predicate Closed(ren: map<string, string>, blockIDs: map<string, BlockType>, used: set<string>) {
    ren.Keys <= used && blockIDs.Keys <= used && AllUnused(ren, used)
  }

  /** An ID that nothing was planned for. */
  ghost predicate Unplanned(id: string, ren: map<string, string>, used: set<string>) {
    id !in used && id !in ren.Values && id != "" && id[0] == IdKind(TypeOther(""))
  }

  /** A block as it stands after `v` visits; `used` and `now` are the IDs in use before the pass and now. */
  ghost predicate Visited(v: nat, was: BlockData, b: BlockData, ren: map<string, string>,
                          blockIDs: map<string, BlockType>, used: set<string>, now: set<string>) {
    if v == 0 then b == was
    else
      && b.id in now && b.kind == was.kind && b.meta == was.meta
      && (v == 1 ==>
            && b == LinksRenamed(was, b.id, ren)
            && IdReissued(was, b.id, ren, used)
            && KindMatches(b.id, was.id, blockIDs))
      && (v >= 2 && Closed(ren, blockIDs, used) ==> b == LinksRenamed(was, b.id, ren) && Unplanned(b.id, ren, used))
  }

  lemma VisitedLater(v: nat, was: BlockData, b: BlockData, ren: map<string, string>, blockIDs: map<string, BlockType>,
                     used: set<string>, now: set<string>, later: set<string>)
    requires Visited(v, was, b, ren, blockIDs, used, now) && now <= later
    ensures Visited(v, was, b, ren, blockIDs, used, later)
  {
  }

  lemma RenameTwice(b: BlockData, x: string, y: string, ren: map<string, string>)
    requires forall z :: z in ren ==> ren[z] !in ren
    ensures LinksRenamed(LinksRenamed(b, x, ren), y, ren) == LinksRenamed(b, y, ren)
  {
    RenameOrderTwice(b.contentOrder, ren);
    RenameOrderTwice(b.cardOrder, ren);
  }

  lemma RenameOrderTwice(f: Field, ren: map<string, string>)
    requires forall z :: z in ren ==> ren[z] !in ren
    ensures RenameOrder(ren, RenameOrder(ren, f)) == RenameOrder(ren, f)
  {
    if f.Order? {
      var once := RenameEntries(ren, f.entries);
      forall i | 0 <= i < |once| ensures RenameEntry(ren, once[i]) == once[i] {
        if f.entries[i].Column? {
          assert RenameIds(ren, RenameIds(ren, f.entries[i].ids)) == RenameIds(ren, f.entries[i].ids);
        }
      }
      assert RenameEntries(ren, once) == once;
    }
  }

  /** One more visit to a block. */
  lemma VisitNext(v: nat, was: BlockData, b: BlockData, next: BlockData, ren: map<string, string>,
                  blockIDs: map<string, BlockType>, used: set<string>, now: set<string>)
    requires Visited(v, was, b, ren, blockIDs, used, now) && used + ren.Values <= now
    requires next == LinksRenamed(b, next.id, ren) && IdReissued(b, next.id, ren, now)
    requires b.id !in ren ==> next.id != "" && next.id[0] == IdKind(KindOf(blockIDs, b.id))
    requires was.id in blockIDs && AllMatch(ren, blockIDs)
    ensures Visited(v + 1, was, next, ren, blockIDs, used, now + {next.id})
  {
    if v > 0 && Closed(ren, blockIDs, used) {
      assert b.id !in used;
      RenameTwice(was, b.id, next.id, ren);
    }
  }

  /** Different blocks get the same ID only if they shared a planned one. */
  ghost predicate Apart(n: nat, olds: seq<BlockData>, news: seq<BlockData>, ren: map<string, string>)
    requires n <= |olds| == |news|
  {
    forall j, k :: 0 <= j < k < n && news[j].id == news[k].id ==> olds[j].id == olds[k].id && olds[j].id in ren
  }

  /** The blocks after the first `n` visits. */
  ghost predicate VisitedUpTo(blocks: seq<Block>, n: nat, olds: seq<BlockData>, news: seq<BlockData>,
                              ren: map<string, string>, blockIDs: map<string, BlockType>, used: set<string>,
                              now: set<string>) {
    && n <= |blocks| == |olds| == |news| && used + ren.Values <= now
    && (forall k :: 0 <= k < |blocks| ==>
          Visited(Times(blocks[..n], blocks[k]), olds[k], news[k], ren, blockIDs, used, now))
    && (NoRepeats(blocks) ==> Apart(n, olds, news, ren))
  }

  /** Where the same object is listed, the contents are the same. */
  ghost predicate Consistent(blocks: seq<Block>, bs: seq<BlockData>) {
    |bs| == |blocks| && forall j, k :: 0 <= j < |blocks| && 0 <= k < |blocks| && blocks[j] == blocks[k] ==>
      bs[j] == bs[k]
  }

  lemma TimesUpTo(blocks: seq<Block>, n: nat, k: nat)
    requires n < |blocks| && k < |blocks|
    ensures Times(blocks[..n + 1], blocks[k]) == Times(blocks[..n], blocks[k]) + if blocks[k] == blocks[n] then 1 else 0
    ensures NoRepeats(blocks) ==> Times(blocks[..n], blocks[k]) == if k < n then 1 else 0
  {
    assert blocks[..n + 1] == blocks[..n] + [blocks[n]];
    TimesJoin(blocks[..n], [blocks[n]], blocks[k]);
    assert Times([blocks[n]], blocks[k]) == if blocks[k] == blocks[n] then 1 else 0;
    TimesIn(blocks[..n], blocks[k]);
    if k < n {
      assert blocks[..n][k] == blocks[k];
    }
  }

  lemma VisitedNext(blocks: seq<Block>, n: nat, olds: seq<BlockData>, before: seq<BlockData>, after: seq<BlockData>,
                    ren: map<string, string>, blockIDs: map<string, BlockType>, used: set<string>, now: set<string>)
    requires VisitedUpTo(blocks, n, olds, before, ren, blockIDs, used, now) && n < |blocks| == |after|
    requires Consistent(blocks, olds) && Consistent(blocks, before)
    requires forall k :: 0 <= k < |blocks| ==> after[k] == if blocks[k] == blocks[n] then after[n] else before[k]
    requires after[n] == LinksRenamed(before[n], after[n].id, ren) && IdReissued(before[n], after[n].id, ren, now)
    requires before[n].id !in ren ==> after[n].id != "" && after[n].id[0] == IdKind(KindOf(blockIDs, before[n].id))
    requires Recorded(blockIDs, olds) && AllMatch(ren, blockIDs) && Injective(ren)
    ensures VisitedUpTo(blocks, n + 1, olds, after, ren, blockIDs, used, now + {after[n].id})
  {
    var later := now + {after[n].id};
    forall k | 0 <= k < |blocks|
      ensures Visited(Times(blocks[..n + 1], blocks[k]), olds[k], after[k], ren, blockIDs, used, later)
    {
      TimesUpTo(blocks, n, k);
      if blocks[k] == blocks[n] {
        VisitNext(Times(blocks[..n], blocks[k]), olds[k], before[k], after[k], ren, blockIDs, used, now);
      } else {
        VisitedLater(Times(blocks[..n], blocks[k]), olds[k], before[k], ren, blockIDs, used, now, later);
      }
    }
    if NoRepeats(blocks) {
      ApartNext(blocks, n, olds, before, after, ren, blockIDs, used, now);
    }
  }

  lemma ApartNext(blocks: seq<Block>, n: nat, olds: seq<BlockData>, before: seq<BlockData>, after: seq<BlockData>,
                  ren: map<string, string>, blockIDs: map<string, BlockType>, used: set<string>, now: set<string>)
    requires VisitedUpTo(blocks, n, olds, before, ren, blockIDs, used, now)
    requires n < |blocks| == |after| && NoRepeats(blocks)
    requires forall k :: 0 <= k < |blocks| && k != n ==> after[k] == before[k]
    requires IdReissued(before[n], after[n].id, ren, now) && Injective(ren)
    ensures Apart(n + 1, olds, after, ren)
  {
    TimesUpTo(blocks, n, n);
    assert before[n] == olds[n];
    forall j | 0 <= j < n && after[j].id == after[n].id ensures olds[j].id == olds[n].id && olds[j].id in ren {
      TimesUpTo(blocks, n, j);
      assert Visited(1, olds[j], before[j], ren, blockIDs, used, now);
    }
  }

  ghost predicate AllMatch(newIDs: map<string, string>, blockIDs: map<string, BlockType>) {
    forall id :: id in newIDs ==> KindMatches(newIDs[id], id, blockIDs)
  }

  ghost predicate AllUnused(newIDs: map<string, string>, used: set<string>) {
    forall id :: id in newIDs ==> newIDs[id] !in used
  }

  ghost predicate Recorded(blockIDs: map<string, BlockType>, bs: seq<BlockData>) {
    forall i :: 0 <= i < |bs| ==> bs[i].id in blockIDs
  }

  lemma AllRecorded(blockIDs: map<string, BlockType>, bs: seq<BlockData>)
    requires RecordsKinds(blockIDs, bs)
    ensures Recorded(blockIDs, bs)
  {
    forall i | 0 <= i < |bs| ensures bs[i].id in BlockIDs(bs) {
      assert bs[i] in bs;
    }
  }

  /** The type recorded for an ID, or the zero value. */
  function KindOf(blockIDs: map<string, BlockType>, id: string): BlockType {
    if id in blockIDs then blockIDs[id] else TypeOther("")
  }

  lemma ContentsConsistent(blocks: seq<Block>)
    ensures Consistent(blocks, Contents(blocks))
  {
  }

  /** Third pass.  An object that is listed more than once is rewritten as often. */
  method RewriteBlocks(blocks: seq<Block>, newIDs: map<string, string>, blockIDs: map<string, BlockType>, ids: IdSupply,
                       ghost used: set<string>)
    returns (newBlocks: seq<Block>)
    requires Recorded(blockIDs, Contents(blocks))
    requires ids.Valid() && used + newIDs.Values <= ids.used && Injective(newIDs)
    requires AllMatch(newIDs, blockIDs)
    modifies ids, blocks
    ensures newBlocks == blocks && ids.Valid() && old(ids.used) <= ids.used
    ensures VisitedUpTo(blocks, |blocks|, old(Contents(blocks)), Contents(blocks), newIDs, blockIDs, used, ids.used)
  {
    ghost var olds, news := Contents(blocks), Contents(blocks);
    newBlocks := [];
    ContentsConsistent(blocks);
    for i := 0 to |blocks|
      invariant newBlocks == blocks[..i]
      invariant ids.Valid() && old(ids.used) <= ids.used && news == Contents(blocks)
      invariant VisitedUpTo(blocks, i, olds, news, newIDs, blockIDs, used, ids.used)
    {
      var block := blocks[i];
      ghost var now, before := ids.used, news;
      assert blocks[..i + 1] == blocks[..i] + [block];
      ContentsConsistent(blocks);
      ReissueBlock(block, newIDs, KindOf(blockIDs, block.id), ids);
      news := Contents(blocks);
      VisitedNext(blocks, i, olds, before, news, newIDs, blockIDs, used, now);
      newBlocks := newBlocks + [block];
    }
  }

  lemma {:induction false} FirstKindDistinct(bs: seq<BlockData>, k: nat)
    requires Distinct(bs) && k < |bs|
    ensures bs[k].id in BlockIDs(bs)
    ensures FirstKind(bs, bs[k].id) == bs[k].kind
  {
    assert bs[k] in bs;
    if k == 0 {
    } else {
      assert bs[1..][k - 1] == bs[k];
      FirstKindDistinct(bs[1..], k - 1);
    }
  }

  /** Every ID is prefixed for its block's type. */
  ghost predicate WellPrefixed(bs: seq<BlockData>) {
    forall b :: b in bs ==> b.id != "" && b.id[0] == IdKind(b.kind)
  }

  /** How often each place's object is listed. */
  ghost function Visits(blocks: seq<Block>): (r: seq<nat>)
    ensures |r| == |blocks|
  {
    seq(|blocks|, k requires 0 <= k < |blocks| => Times(blocks, blocks[k]))
  }

  /** What GenerateBlockIDs does to any list: all links go through `ren`; an object listed once gets its
      planned ID or one of its own; an object listed again ends with an ID that nothing was planned for. */
  ghost predicate ReissuedAll(visits: seq<nat>, olds: seq<BlockData>, news: seq<BlockData>, ren: map<string, string>,
                              used: set<string>) {
    && |visits| == |olds| == |news|
    && ren.Keys == BlockIDs(olds) * AllRefs(olds) && Injective(ren) && AllUnused(ren, used)
    && (forall k :: 0 <= k < |olds| ==> news[k].kind == olds[k].kind && news[k].meta == olds[k].meta)
    && (forall k :: 0 <= k < |olds| && visits[k] == 1 ==>
          news[k] == LinksRenamed(olds[k], news[k].id, ren) && IdReissued(olds[k], news[k].id, ren, used))
    && (forall k :: 0 <= k < |olds| && visits[k] >= 2 && BlockIDs(olds) <= used ==>
          news[k] == LinksRenamed(olds[k], news[k].id, ren) && Unplanned(news[k].id, ren, used))
  }

  lemma RewritingReissues(blocks: seq<Block>, olds: seq<BlockData>, news: seq<BlockData>,
                          blockIDs: map<string, BlockType>, ren: map<string, string>, used: set<string>,
                          now: set<string>)
    requires RecordsKinds(blockIDs, olds) && VisitedUpTo(blocks, |blocks|, olds, news, ren, blockIDs, used, now)
    requires ren.Keys == blockIDs.Keys * AllRefs(olds) && Injective(ren) && AllUnused(ren, used)
    ensures ReissuedAll(Visits(blocks), olds, news, ren, used)
    ensures NoRepeats(blocks) ==> Reissued(olds, news, ren, used)
    ensures NoRepeats(blocks) && Distinct(olds) ==> WellPrefixed(news)
  {
    assert blocks[..|blocks|] == blocks;
    forall k | 0 <= k < |blocks| ensures Visited(Times(blocks, blocks[k]), olds[k], news[k], ren, blockIDs, used, now) {
    }
    if NoRepeats(blocks) {
      forall k | 0 <= k < |blocks| ensures Visited(1, olds[k], news[k], ren, blockIDs, used, now) {
        TimesIn(blocks, blocks[k]);
      }
      if Distinct(olds) {
        forall i | 0 <= i < |olds| ensures news[i].id != "" && news[i].id[0] == IdKind(news[i].kind) {
          FirstKindDistinct(olds, i);
        }
      }
    }
  }

  /** First and second pass: the new IDs, with the block type recorded for each old one. */
  method PlanIDs(blocks: seq<Block>, ids: IdSupply)
    returns (newIDs: map<string, string>, blockIDs: map<string, BlockType>)
    requires ids.Valid()
    modifies ids
    ensures ids.Valid() && old(ids.used) + newIDs.Values <= ids.used
    ensures RecordsKinds(blockIDs, old(Contents(blocks)))
    ensures newIDs.Keys == blockIDs.Keys * AllRefs(old(Contents(blocks))) && Injective(newIDs)
    ensures AllMatch(newIDs, blockIDs) && AllUnused(newIDs, old(ids.used))
  {
    ghost var olds := Contents(blocks);
    var referenceIDs;
    blockIDs, referenceIDs := CollectReferences(blocks);
    assert Contents(blocks) == olds;
    newIDs := DrawNewIDs(blockIDs, referenceIDs, ids);
  }

  // ----- what becomes of a block, place by place

  /** The order list names the ID, at some place or in some column. */
  ghost predicate NamesAt(f: Field, x: string) {
    f.Order? && exists k :: 0 <= k < |f.entries| && PlaceNames(f.entries[k], x)
  }

  ghost predicate PlaceNames(e: Entry, x: string) {
    e == Id(x) || (e.Column? && exists c :: 0 <= c < |e.ids| && e.ids[c] == x)
  }

  /** The block refers to the ID by its parent, its content or, unless its content is ill typed, its default
      template. */
  ghost predicate NamesInside(b: BlockData, x: string) {
    || b.parentID == x
    || NamesAt(b.contentOrder, x)
    || ((b.contentOrder.Absent? || b.contentOrder.Order?) && b.defaultTemplateId == Text(x))
  }

  /** Which IDs count as referred to; a card order does not count. */
  lemma CountedIff(bs: seq<BlockData>, x: string)
    ensures x in AllRefs(bs) <==> exists i :: 0 <= i < |bs| && (bs[i].boardID == x || NamesInside(bs[i], x))
  {
    if x in AllRefs(bs) {
      var b :| b in bs && x in Refs(b);
      var i :| 0 <= i < |bs| && bs[i] == b;
      NamesAtIff(b.contentOrder, x);
      assert bs[i].boardID == x || NamesInside(bs[i], x);
    }
    if i :| 0 <= i < |bs| && (bs[i].boardID == x || NamesInside(bs[i], x)) {
      NamesAtIff(bs[i].contentOrder, x);
      assert bs[i] in bs && x in Refs(bs[i]);
    }
  }

  lemma NamesAtIff(f: Field, x: string)
    ensures NamesAt(f, x) <==> x in OrderIds(f)
  {
    if NamesAt(f, x) {
      var k :| 0 <= k < |f.entries| && PlaceNames(f.entries[k], x);
      assert f.entries[k] in f.entries && x in EntryIds(f.entries[k]);
    }
    if x in OrderIds(f) {
      var e :| e in f.entries && x in EntryIds(e);
      var k :| 0 <= k < |f.entries| && f.entries[k] == e;
      assert PlaceNames(f.entries[k], x);
    }
  }

  /** `y` stands where `x` stood: the new ID of the block named, if its ID is among `refs`, and else the
      same text. */
  ghost predicate Follows(olds: seq<BlockData>, news: seq<BlockData>, refs: set<string>, x: string, y: string)
    requires |olds| == |news|
  {
    && (forall j :: 0 <= j < |olds| && olds[j].id == x && x in refs ==> y == news[j].id)
    && ((forall j :: 0 <= j < |olds| ==> olds[j].id != x) || x !in refs ==> y == x)
  }

  ghost predicate PlaceFollows(olds: seq<BlockData>, news: seq<BlockData>, refs: set<string>, was: Entry, now: Entry)
    requires |olds| == |news|
  {
    match was
    case Id(x) => now.Id? && Follows(olds, news, refs, x, now.id)
    case Column(xs) =>
      now.Column? && |now.ids| == |xs| && forall c :: 0 <= c < |xs| ==> Follows(olds, news, refs, xs[c], now.ids[c])
    case Junk => now.Junk?
  }

  /** A field after the change: an order list has the same places, each with what stands there now; a
      text is followed as a default template is, or left alone; anything else is as it was. */
  ghost predicate OrderFollows(olds: seq<BlockData>, news: seq<BlockData>, refs: set<string>, was: Field, now: Field)
    requires |olds| == |news|
  {
    if was.Order? then
      && now.Order? && |now.entries| == |was.entries|
      && forall k :: 0 <= k < |was.entries| ==> PlaceFollows(olds, news, refs, was.entries[k], now.entries[k])
    else now == was
  }

  ghost predicate TextFollows(olds: seq<BlockData>, news: seq<BlockData>, refs: set<string>, was: Field, now: Field)
    requires |olds| == |news|
  {
    if was.Text? then now.Text? && Follows(olds, news, refs, was.text, now.text) else now == was
  }

  /** What becomes of a whole block: board, parent and every place of its content follow all blocks, a card
      order and a default template those that some counted link refers to, and nothing else changes. */
  ghost predicate BlockFollows(olds: seq<BlockData>, news: seq<BlockData>, i: nat)
    requires |olds| == |news| && i < |olds|
  {
    var was, now := olds[i], news[i];
    && now.kind == was.kind && now.meta == was.meta
    && Follows(olds, news, BlockIDs(olds), was.boardID, now.boardID)
    && Follows(olds, news, BlockIDs(olds), was.parentID, now.parentID)
    && OrderFollows(olds, news, BlockIDs(olds), was.contentOrder, now.contentOrder)
    && OrderFollows(olds, news, AllRefs(olds), was.cardOrder, now.cardOrder)
    && TextFollows(olds, news, AllRefs(olds), was.defaultTemplateId, now.defaultTemplateId)
  }

  ghost predicate EachFollows(olds: seq<BlockData>, news: seq<BlockData>) {
    |news| == |olds| && forall i :: 0 <= i < |olds| ==> BlockFollows(olds, news, i)
  }

  lemma RenameFollows(olds: seq<BlockData>, news: seq<BlockData>, ren: map<string, string>, used: set<string>,
                      x: string)
    requires Reissued(olds, news, ren, used)
    ensures Follows(olds, news, AllRefs(olds), x, Rename(ren, x))
    ensures x in AllRefs(olds) ==> Follows(olds, news, BlockIDs(olds), x, Rename(ren, x))
  {
    forall j | 0 <= j < |olds| && olds[j].id == x
      ensures x in BlockIDs(olds) && IdReissued(olds[j], news[j].id, ren, used)
    {
      assert olds[j] in olds;
    }
  }

  lemma OrderRenameFollows(olds: seq<BlockData>, news: seq<BlockData>, ren: map<string, string>, used: set<string>,
                           f: Field)
    requires Reissued(olds, news, ren, used)
    ensures OrderFollows(olds, news, AllRefs(olds), f, RenameOrder(ren, f))
    ensures OrderIds(f) <= AllRefs(olds) ==> OrderFollows(olds, news, BlockIDs(olds), f, RenameOrder(ren, f))
  {
    if f.Order? {
      forall k | 0 <= k < |f.entries|
        ensures PlaceFollows(olds, news, AllRefs(olds), f.entries[k], RenameEntry(ren, f.entries[k]))
        ensures OrderIds(f) <= AllRefs(olds) ==>
                  PlaceFollows(olds, news, BlockIDs(olds), f.entries[k], RenameEntry(ren, f.entries[k]))
      {
        assert f.entries[k] in f.entries;
        PlaceRenameFollows(olds, news, ren, used, f.entries[k]);
        assert EntryIds(f.entries[k]) <= OrderIds(f);
      }
    }
  }

  lemma PlaceRenameFollows(olds: seq<BlockData>, news: seq<BlockData>, ren: map<string, string>, used: set<string>,
                           e: Entry)
    requires Reissued(olds, news, ren, used)
    ensures PlaceFollows(olds, news, AllRefs(olds), e, RenameEntry(ren, e))
    ensures EntryIds(e) <= AllRefs(olds) ==> PlaceFollows(olds, news, BlockIDs(olds), e, RenameEntry(ren, e))
  {
    match e
    case Id(x) => RenameFollows(olds, news, ren, used, x);
    case Column(xs) =>
      forall c | 0 <= c < |xs|
        ensures Follows(olds, news, AllRefs(olds), xs[c], Rename(ren, xs[c]))
        ensures EntryIds(e) <= AllRefs(olds) ==> Follows(olds, news, BlockIDs(olds), xs[c], Rename(ren, xs[c]))
      {
        assert xs[c] in EntryIds(e);
        RenameFollows(olds, news, ren, used, xs[c]);
      }
    case Junk =>
  }

  /** Every block, place by place. */
  lemma EveryBlockFollows(olds: seq<BlockData>, news: seq<BlockData>, ren: map<string, string>, used: set<string>)
    requires Reissued(olds, news, ren, used)
    ensures EachFollows(olds, news)
  {
    forall i | 0 <= i < |olds| ensures BlockFollows(olds, news, i) {
      var b := olds[i];
      MentionedAt(olds, i);
      assert b.boardID in Refs(b) && b.parentID in Refs(b) && OrderIds(b.contentOrder) <= Refs(b);
      RenameFollows(olds, news, ren, used, b.boardID);
      RenameFollows(olds, news, ren, used, b.parentID);
      OrderRenameFollows(olds, news, ren, used, b.contentOrder);
      OrderRenameFollows(olds, news, ren, used, b.cardOrder);
      if b.defaultTemplateId.Text? {
        RenameFollows(olds, news, ren, used, b.defaultTemplateId.text);
      }
    }
  }

  // ----- all three passes

  /** Gives every block a new ID and keeps the references between the blocks consistent. */
  method GenerateBlockIDs(blocks: seq<Block>, ids: IdSupply)
    returns (newBlocks: seq<Block>, ghost ren: map<string, string>)
    requires ids.Valid()
    modifies ids, blocks
    ensures newBlocks == blocks && ids.Valid() && old(ids.used) <= ids.used
    ensures ReissuedAll(Visits(blocks), old(Contents(blocks)), Contents(blocks), ren, old(ids.used))
    ensures NoRepeats(blocks) ==> Reissued(old(Contents(blocks)), Contents(blocks), ren, old(ids.used))
    ensures NoRepeats(blocks) && Distinct(old(Contents(blocks))) ==> WellPrefixed(Contents(blocks))
    ensures NoRepeats(blocks) ==> EachFollows(old(Contents(blocks)), Contents(blocks))
  {
    ghost var olds, used := Contents(blocks), ids.used;
    var newIDs, blockIDs := PlanIDs(blocks, ids);
    assert Contents(blocks) == olds;
    AllRecorded(blockIDs, olds);
    newBlocks := RewriteBlocks(blocks, newIDs, blockIDs, ids, used);
    ren := newIDs;
    RewritingReissues(blocks, olds, Contents(blocks), blockIDs, ren, used, ids.used);
    if NoRepeats(blocks) {
      EveryBlockFollows(olds, Contents(blocks), ren, used);
    }
  }

  // ----- the shape of the tree is kept

  /** Two renamings treat an order list alike exactly when they treat each ID in it alike. */
  lemma RenameEntryAlike(a: map<string, string>, b: map<string, string>, e: Entry)
    ensures RenameEntry(a, e) == RenameEntry(b, e) <==> forall x :: x in EntryIds(e) ==> Rename(a, x) == Rename(b, x)
  {
    if e.Column? {
      if RenameEntry(a, e) == RenameEntry(b, e) {
        forall x | x in e.ids ensures Rename(a, x) == Rename(b, x) {
          var i :| 0 <= i < |e.ids| && e.ids[i] == x;
          assert RenameIds(a, e.ids)[i] == RenameIds(b, e.ids)[i];
        }
      }
      if forall x :: x in EntryIds(e) ==> Rename(a, x) == Rename(b, x) {
        assert forall i :: 0 <= i < |e.ids| ==> e.ids[i] in EntryIds(e);
        assert RenameIds(a, e.ids) == RenameIds(b, e.ids);
      }
    } else if e.Id? {
      assert e.id in EntryIds(e);
    }
  }

  lemma RenameOrderAlike(a: map<string, string>, b: map<string, string>, f: Field)
    ensures RenameOrder(a, f) == RenameOrder(b, f) <==> forall x :: x in OrderIds(f) ==> Rename(a, x) == Rename(b, x)
  {
    if f.Order? {
      var es := f.entries;
      if RenameOrder(a, f) == RenameOrder(b, f) {
        forall x | x in OrderIds(f) ensures Rename(a, x) == Rename(b, x) {
          var i :| 0 <= i < |es| && x in EntryIds(es[i]);
          assert RenameEntries(a, es)[i] == RenameEntries(b, es)[i];
          RenameEntryAlike(a, b, es[i]);
        }
      }
      if forall x :: x in OrderIds(f) ==> Rename(a, x) == Rename(b, x) {
        forall i | 0 <= i < |es| ensures RenameEntry(a, es[i]) == RenameEntry(b, es[i]) {
          assert es[i] in es;
          RenameEntryAlike(a, b, es[i]);
        }
        assert RenameEntries(a, es) == RenameEntries(b, es);
      }
    }
  }

  /** The new ID of every block, referred to or not. */
  ghost function Renaming(olds: seq<BlockData>, news: seq<BlockData>): map<string, string>
    requires |olds| == |news|
  {
    map id | id in BlockIDs(olds) :: var i :| 0 <= i < |olds| && olds[i].id == id; news[i].id
  }

  lemma RenamingAt(olds: seq<BlockData>, news: seq<BlockData>, i: nat)
    requires |olds| == |news| && Distinct(olds) && i < |olds|
    ensures olds[i].id in Renaming(olds, news)
    ensures Renaming(olds, news)[olds[i].id] == news[i].id
  {
    assert olds[i] in olds;
  }

  lemma RenamingSource(olds: seq<BlockData>, news: seq<BlockData>, ren: map<string, string>, used: set<string>,
                       x: string)
    returns (i: nat)
    requires Reissued(olds, news, ren, used) && Distinct(olds) && x in BlockIDs(olds)
    ensures i < |olds| && olds[i].id == x
    ensures Renaming(olds, news)[x] == news[i].id
    ensures Renaming(olds, news)[x] !in used && (x in ren ==> Renaming(olds, news)[x] == ren[x])
  {
    i :| 0 <= i < |olds| && olds[i].id == x;
    RenamingAt(olds, news, i);
    assert IdReissued(olds[i], news[i].id, ren, used);
  }

  /** All blocks together undergo one injective renaming to fresh IDs, which extends `ren`. */
  lemma RenamingFresh(olds: seq<BlockData>, news: seq<BlockData>, ren: map<string, string>, used: set<string>)
    requires Reissued(olds, news, ren, used) && Distinct(olds)
    ensures Renaming(olds, news).Keys == BlockIDs(olds)
    ensures Injective(Renaming(olds, news))
    ensures forall x :: x in Renaming(olds, news) ==> Renaming(olds, news)[x] !in used
    ensures forall x :: x in ren ==> x in Renaming(olds, news) && Renaming(olds, news)[x] == ren[x]
  {
    var all := Renaming(olds, news);
    forall x | x in all ensures all[x] !in used && (x in ren ==> all[x] == ren[x]) {
      var i := RenamingSource(olds, news, ren, used, x);
    }
    forall x, y | x in all && y in all && all[x] == all[y] ensures x == y {
      var i := RenamingSource(olds, news, ren, used, x);
      var j := RenamingSource(olds, news, ren, used, y);
    }
  }

  /** On an ID mentioned in the blocks, `ren` and the full renaming agree unless it names a block
      that nothing refers to. */
  lemma RenameAlike(olds: seq<BlockData>, news: seq<BlockData>, ren: map<string, string>, used: set<string>, x: string)
    requires Reissued(olds, news, ren, used) && Distinct(olds) && x in used
    ensures Rename(ren, x) == Rename(Renaming(olds, news), x) <==> (x in BlockIDs(olds) ==> x in AllRefs(olds))
  {
    RenamingFresh(olds, news, ren, used);
  }

  lemma MentionsAlike(olds: seq<BlockData>, news: seq<BlockData>, ren: map<string, string>, used: set<string>, i: nat)
    requires Reissued(olds, news, ren, used) && Distinct(olds) && Mentioned(olds) <= used && i < |olds|
    ensures forall x :: x in Mentions(olds[i]) ==>
              (Rename(ren, x) == Rename(Renaming(olds, news), x) <==> (x in BlockIDs(olds) ==> x in AllRefs(olds)))
  {
    MentionedAt(olds, i);
    forall x | x in Mentions(olds[i])
      ensures Rename(ren, x) == Rename(Renaming(olds, news), x) <==> (x in BlockIDs(olds) ==> x in AllRefs(olds))
    {
      RenameAlike(olds, news, ren, used, x);
    }
  }

  /** The board, the parent and the content of a block follow its neighbours' new IDs; an ID from
      outside the list is not touched. */
  lemma LinksFollow(olds: seq<BlockData>, news: seq<BlockData>, ren: map<string, string>, used: set<string>, i: nat)
    requires Reissued(olds, news, ren, used) && Distinct(olds) && Mentioned(olds) <= used && i < |olds|
    ensures news[i].id == Rename(Renaming(olds, news), olds[i].id)
    ensures news[i].boardID == Rename(Renaming(olds, news), olds[i].boardID)
    ensures news[i].parentID == Rename(Renaming(olds, news), olds[i].parentID)
    ensures news[i].contentOrder == RenameOrder(Renaming(olds, news), olds[i].contentOrder)
  {
    RenamingAt(olds, news, i);
    CountedLinksAlike(olds, news, ren, used, i);
    RenameOrderAlike(ren, Renaming(olds, news), olds[i].contentOrder);
  }

  lemma CountedLinksAlike(olds: seq<BlockData>, news: seq<BlockData>, ren: map<string, string>, used: set<string>,
                          i: nat)
    requires Reissued(olds, news, ren, used) && Distinct(olds) && Mentioned(olds) <= used && i < |olds|
    ensures forall x :: x in {olds[i].boardID, olds[i].parentID} + OrderIds(olds[i].contentOrder) ==>
              Rename(ren, x) == Rename(Renaming(olds, news), x)
  {
    MentionedAt(olds, i);
    MentionsAlike(olds, news, ren, used, i);
    assert forall x :: x in {olds[i].boardID, olds[i].parentID} + OrderIds(olds[i].contentOrder) ==>
             x in Mentions(olds[i]) && x in Refs(olds[i]);
  }

  /** A card order is not counted as a reference, so it follows the new IDs exactly when every block
      it names is referred to by some counted link. */
  lemma CardOrderFollowsIff(olds: seq<BlockData>, news: seq<BlockData>, ren: map<string, string>, used: set<string>,
                            i: nat)
    requires Reissued(olds, news, ren, used) && Distinct(olds) && Mentioned(olds) <= used && i < |olds|
    ensures news[i].cardOrder == RenameOrder(Renaming(olds, news), olds[i].cardOrder)
            <==> forall x :: x in OrderIds(olds[i].cardOrder) && x in BlockIDs(olds) ==> x in AllRefs(olds)
  {
    var all, b := Renaming(olds, news), olds[i];
    MentionsAlike(olds, news, ren, used, i);
    assert forall x :: x in OrderIds(b.cardOrder) ==> x in Mentions(b);
    RenameOrderAlike(ren, all, b.cardOrder);
  }

  /** A default template follows the new IDs exactly when its block is referred to by some counted
      link; the template link itself counts unless the content order is ill typed. */
  lemma DefaultTemplateFollowsIff(olds: seq<BlockData>, news: seq<BlockData>, ren: map<string, string>,
                                  used: set<string>, i: nat)
    requires Reissued(olds, news, ren, used) && Distinct(olds) && Mentioned(olds) <= used && i < |olds|
    ensures news[i].defaultTemplateId == RenameText(Renaming(olds, news), olds[i].defaultTemplateId)
            <==> forall x :: x in TextIds(olds[i].defaultTemplateId) && x in BlockIDs(olds) ==> x in AllRefs(olds)
  {
    var b := olds[i];
    MentionsAlike(olds, news, ren, used, i);
    if b.defaultTemplateId.Text? {
      assert TextIds(b.defaultTemplateId) == {b.defaultTemplateId.text} <= Mentions(b);
    }
  }

  lemma DefaultTemplateCounted(olds: seq<BlockData>, i: nat)
    requires i < |olds| && (olds[i].contentOrder.Absent? || olds[i].contentOrder.Order?)
    ensures TextIds(olds[i].defaultTemplateId) <= AllRefs(olds)
  {
    MentionedAt(olds, i);
  }

  lemma RenamedEqual(all: map<string, string>, used: set<string>, x: string, y: string)
    requires Injective(all) && (forall z :: z in all ==> all[z] !in used)
    requires x in used && y in all
    ensures Rename(all, x) == all[y] <==> x == y
  {
  }

  /** The tree keeps its shape: parent, board and content links hold between new blocks exactly
      where they held between the old ones. */
  lemma ShapeKept(olds: seq<BlockData>, news: seq<BlockData>, ren: map<string, string>, used: set<string>, i: nat,
                  j: nat)
    requires Reissued(olds, news, ren, used) && Distinct(olds) && Mentioned(olds) <= used && i < |olds| && j < |olds|
    ensures news[i].id == news[j].id <==> i == j
    ensures news[i].parentID == news[j].id <==> olds[i].parentID == olds[j].id
    ensures news[i].boardID == news[j].id <==> olds[i].boardID == olds[j].id
    ensures news[j].id in OrderIds(news[i].contentOrder) <==> olds[j].id in OrderIds(olds[i].contentOrder)
  {
    var all, b, y := Renaming(olds, news), olds[i], olds[j].id;
    RenamingFresh(olds, news, ren, used);
    LinksFollow(olds, news, ren, used, i);
    RenamingAt(olds, news, j);
    MentionedAt(olds, i);
    forall x | x in {b.id, b.parentID, b.boardID} + OrderIds(b.contentOrder)
      ensures Rename(all, x) == all[y] <==> x == y
    {
      assert x in Mentions(b);
      RenamedEqual(all, used, x, y);
    }
    OrderIdsRenamed(all, b.contentOrder);
  }

  /** An ID mentioned in the blocks is renamed to the new ID of a block exactly if it is that block's and
      the block is referred to by some counted link. */
  lemma RenamedToIff(olds: seq<BlockData>, news: seq<BlockData>, ren: map<string, string>, used: set<string>, j: nat,
                     x: string)
    requires Reissued(olds, news, ren, used) && Distinct(olds) && j < |olds| && x in used
    ensures Rename(ren, x) == news[j].id <==> x == olds[j].id && x in AllRefs(olds)
  {
    assert olds[j] in olds && olds[j].id in BlockIDs(olds);
    assert IdReissued(olds[j], news[j].id, ren, used);
  }

  lemma LinksAt(olds: seq<BlockData>, news: seq<BlockData>, ren: map<string, string>, used: set<string>, i: nat)
    requires Reissued(olds, news, ren, used) && i < |olds|
    ensures news[i].cardOrder == RenameOrder(ren, olds[i].cardOrder)
    ensures news[i].defaultTemplateId == RenameText(ren, olds[i].defaultTemplateId)
  {
  }

  lemma RenamedOrderIff(ren: map<string, string>, f: Field, x: string, y: string, counted: bool)
    requires forall z :: z in OrderIds(f) ==> (Rename(ren, z) == y <==> z == x && counted)
    ensures y in OrderIds(RenameOrder(ren, f)) <==> x in OrderIds(f) && counted
  {
    OrderIdsRenamed(ren, f);
  }

  lemma RenamedToIffAll(olds: seq<BlockData>, news: seq<BlockData>, ren: map<string, string>, used: set<string>, j: nat,
                        xs: set<string>)
    requires Reissued(olds, news, ren, used) && Distinct(olds) && j < |olds| && xs <= used
    ensures forall x :: x in xs ==> (Rename(ren, x) == news[j].id <==> x == olds[j].id && olds[j].id in AllRefs(olds))
  {
    forall x | x in xs ensures Rename(ren, x) == news[j].id <==> x == olds[j].id && olds[j].id in AllRefs(olds) {
      RenamedToIff(olds, news, ren, used, j, x);
    }
  }

  /** A card order is not counted, so it names a new block exactly if the old one named the old block, and
      the block is referred to by some counted link. */
  lemma CardOrderKeptIff(olds: seq<BlockData>, news: seq<BlockData>, ren: map<string, string>, used: set<string>,
                         i: nat, j: nat)
    requires Reissued(olds, news, ren, used) && Distinct(olds) && Mentioned(olds) <= used && i < |olds| && j < |olds|
    ensures news[j].id in OrderIds(news[i].cardOrder) <==>
              olds[j].id in OrderIds(olds[i].cardOrder) && olds[j].id in AllRefs(olds)
  {
    LinksAt(olds, news, ren, used, i);
    MentionedAt(olds, i);
    RenamedToIffAll(olds, news, ren, used, j, OrderIds(olds[i].cardOrder));
    RenamedOrderIff(ren, olds[i].cardOrder, olds[j].id, news[j].id, olds[j].id in AllRefs(olds));
  }

  /** The same for a default template. */
  lemma DefaultTemplateKeptIff(olds: seq<BlockData>, news: seq<BlockData>, ren: map<string, string>, used: set<string>,
                               i: nat, j: nat)
    requires Reissued(olds, news, ren, used) && Distinct(olds) && Mentioned(olds) <= used && i < |olds| && j < |olds|
    ensures news[j].id in TextIds(news[i].defaultTemplateId) <==>
              olds[j].id in TextIds(olds[i].defaultTemplateId) && olds[j].id in AllRefs(olds)
  {
    var f := olds[i].defaultTemplateId;
    LinksAt(olds, news, ren, used, i);
    MentionedAt(olds, i);
    RenamedToIffAll(olds, news, ren, used, j, TextIds(f));
    assert f.Text? ==> f.text in TextIds(f);
  }

  /** Whatever a block names, by the links that are renamed. */
  function Links(b: BlockData): set<string> {
    {b.boardID, b.parentID} + OrderIds(b.contentOrder) + OrderIds(b.cardOrder) + TextIds(b.defaultTemplateId)
  }

  lemma MentionedIds(olds: seq<BlockData>)
    ensures BlockIDs(olds) <= Mentioned(olds)
  {
    forall k | 0 <= k < |olds| ensures olds[k].id in Mentioned(olds) {
      MentionedAt(olds, k);
      assert olds[k].id in Mentions(olds[k]);
    }
  }

  /** An object that is listed more than once loses every link to it: no block names it afterwards. */
  lemma RepeatedLosesLinks(visits: seq<nat>, olds: seq<BlockData>, news: seq<BlockData>, ren: map<string, string>,
                           used: set<string>, i: nat, j: nat)
    requires ReissuedAll(visits, olds, news, ren, used) && Mentioned(olds) <= used && i < |olds| && j < |olds|
    requires visits[i] >= 1 && visits[j] >= 2
    ensures news[j].id !in Links(news[i])
  {
    MentionedIds(olds);
    MentionedAt(olds, i);
    LinksAreRenamed(olds[i], news[i].id, ren);
    forall z | z in Links(olds[i]) ensures Rename(ren, z) != news[j].id {
      assert z in Mentions(olds[i]);
    }
  }

  lemma LinksAreRenamed(b: BlockData, newID: string, ren: map<string, string>)
    ensures forall x :: x in Links(LinksRenamed(b, newID, ren)) ==> exists z :: z in Links(b) && Rename(ren, z) == x
  {
    OrderIdsRenamed(ren, b.contentOrder);
    OrderIdsRenamed(ren, b.cardOrder);
    forall x | x in Links(LinksRenamed(b, newID, ren)) ensures exists z :: z in Links(b) && Rename(ren, z) == x {
      if x == Rename(ren, b.boardID) {
        assert b.boardID in Links(b);
      } else if x == Rename(ren, b.parentID) {
        assert b.parentID in Links(b);
      } else if x in OrderIds(RenameOrder(ren, b.contentOrder)) {
        var z :| z in OrderIds(b.contentOrder) && Rename(ren, z) == x;
        assert z in Links(b);
      } else if x in OrderIds(RenameOrder(ren, b.cardOrder)) {
        var z :| z in OrderIds(b.cardOrder) && Rename(ren, z) == x;
        assert z in Links(b);
      } else {
        assert b.defaultTemplateId.text in Links(b);
      }
    }
  }

  lemma OrderIdsRenamed(ren: map<string, string>, f: Field)
    ensures OrderIds(RenameOrder(ren, f)) == set x | x in OrderIds(f) :: Rename(ren, x)
  {
    if f.Order? {
      var es, rs := f.entries, RenameEntries(ren, f.entries);
      forall x | x in OrderIds(f) ensures Rename(ren, x) in EntriesIds(rs) {
        var i :| 0 <= i < |es| && x in EntryIds(es[i]);
        EntryIdsRenamed(ren, es[i]);
        assert rs[i] in rs && Rename(ren, x) in EntryIds(rs[i]);
      }
      forall y | y in EntriesIds(rs) ensures exists x :: x in OrderIds(f) && Rename(ren, x) == y {
        var i :| 0 <= i < |rs| && y in EntryIds(rs[i]);
        EntryIdsRenamed(ren, es[i]);
        assert es[i] in es;
      }
    }
  }

  lemma EntryIdsRenamed(ren: map<string, string>, e: Entry)
    ensures EntryIds(RenameEntry(ren, e)) == set x | x in EntryIds(e) :: Rename(ren, x)
  {
    if e.Column? {
      var ids, rs := e.ids, RenameIds(ren, e.ids);
      forall x | x in ids ensures Rename(ren, x) in rs {
        var i :| 0 <= i < |ids| && ids[i] == x;
        assert rs[i] == Rename(ren, x);
      }
      forall y | y in rs ensures exists x :: x in EntryIds(e) && Rename(ren, x) == y {
        var i :| 0 <= i < |rs| && rs[i] == y;
        assert ids[i] in ids;
      }
    }
  }
}
