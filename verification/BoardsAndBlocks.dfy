/** Boards together with their blocks: validity, and new IDs for all of them. */
module BoardsAndBlocks {
  import opened Ids
  import opened BlockIds
  import opened Sequences

  /** A board: its ID, its team, who changed it last and when, and everything else. */
  datatype Board = Board(id: string, teamID: string, meta: Meta)

  datatype Invalid = NoBoards | NoBlocks | BlockWithoutBoard(blockID: string)
  datatype Outcome = Valid | Failed(why: Invalid)

  /** The blocks, of the parallel lists of blocks and their board IDs, that belong to a board. */
  function Group<T>(blocks: seq<T>, boardOf: seq<string>, boardID: string): seq<T>
    requires |blocks| == |boardOf|
  {
    if blocks == [] then []
    else (if boardOf[0] == boardID then [blocks[0]] else []) + Group(blocks[1..], boardOf[1..], boardID)
  }

  /** The blocks board by board. */
  function Regroup<T>(blocks: seq<T>, boardOf: seq<string>, boardIDs: seq<string>): seq<T>
    requires |blocks| == |boardOf|
  {
    if boardIDs == [] then []
    else Group(blocks, boardOf, boardIDs[0]) + Regroup(blocks, boardOf, boardIDs[1..])
  }

  /** The board ID of each block. */
  function Homes(bs: seq<BlockData>): (r: seq<string>)
    ensures |r| == |bs|
  {
    seq(|bs|, i requires 0 <= i < |bs| => bs[i].boardID)
  }

  function BoardIDs(boards: seq<Board>): (r: seq<string>)
    ensures |r| == |boards|
  {
    seq(|boards|, i requires 0 <= i < |boards| => boards[i].id)
  }

  /** Every block belongs to one of the boards. */
  ghost predicate AllHoused(bs: seq<BlockData>, boardIDs: seq<string>) {
    forall i :: 0 <= i < |bs| ==> bs[i].boardID in boardIDs
  }

  /** Checks that there are boards, that there are blocks, and that every block has its board. */
  method IsValid(boards: seq<Board>, blocks: seq<Block>) returns (r: Outcome)
    ensures r == Failed(NoBoards) <==> boards == []
    ensures r == Failed(NoBlocks) <==> boards != [] && blocks == []
    ensures r.Failed? && r.why.BlockWithoutBoard? ==>
              exists i :: 0 <= i < |blocks| && r.why.blockID == blocks[i].id && blocks[i].boardID !in BoardIDs(boards)
                && AllHoused(Contents(blocks)[..i], BoardIDs(boards))
    ensures r.Valid? <==> boards != [] && blocks != [] && AllHoused(Contents(blocks), BoardIDs(boards))
  {
    if |boards| == 0 {
      return Failed(NoBoards);
    }
    if |blocks| == 0 {
      return Failed(NoBlocks);
    }
    var boardsMap := {};
    for i := 0 to |boards|
      invariant boardsMap == set x | x in BoardIDs(boards)[..i]
    {
      assert BoardIDs(boards)[..i + 1] == BoardIDs(boards)[..i] + [boards[i].id];
      boardsMap := boardsMap + {boards[i].id};
    }
    assert BoardIDs(boards)[..|boards|] == BoardIDs(boards);
    for i := 0 to |blocks|
      invariant AllHoused(Contents(blocks)[..i], BoardIDs(boards))
    {
      assert Contents(blocks)[i] == blocks[i].Data();
      if blocks[i].boardID !in boardsMap {
        return Failed(BlockWithoutBoard(blocks[i].id));
      }
    }
    return Valid;
  }

  lemma {:induction false} GroupPush<T>(blocks: seq<T>, boardOf: seq<string>, b: T, board: string, id: string)
    requires |blocks| == |boardOf|
    ensures Group(blocks + [b], boardOf + [board], id) == Group(blocks, boardOf, id) + if board == id then [b] else []
  {
    if blocks == [] {
      assert blocks + [b] == [b] && boardOf + [board] == [board];
    } else {
      assert (blocks + [b])[1..] == blocks[1..] + [b] && (boardOf + [board])[1..] == boardOf[1..] + [board];
      GroupPush(blocks[1..], boardOf[1..], b, board, id);
    }
  }

  /** A block is in a board's group exactly if it is listed with that board. */
  lemma {:induction false} InGroup<T>(blocks: seq<T>, boardOf: seq<string>, id: string, b: T)
    requires |blocks| == |boardOf|
    ensures b in Group(blocks, boardOf, id) <==> exists i :: 0 <= i < |blocks| && blocks[i] == b && boardOf[i] == id
  {
    if blocks == [] {
    } else {
      InGroup(blocks[1..], boardOf[1..], id, b);
      if i :| 0 <= i < |blocks| && blocks[i] == b && boardOf[i] == id {
        assert i > 0 ==> blocks[1..][i - 1] == b && boardOf[1..][i - 1] == id;
      }
      if i :| 0 <= i < |blocks[1..]| && blocks[1..][i] == b && boardOf[1..][i] == id {
        assert blocks[i + 1] == b && boardOf[i + 1] == id;
      }
    }
  }

  lemma {:induction false} GroupNoRepeats<T>(blocks: seq<T>, boardOf: seq<string>, id: string)
    requires |blocks| == |boardOf| && NoRepeats(blocks)
    ensures NoRepeats(Group(blocks, boardOf, id))
  {
    if blocks == [] {
    } else {
      GroupNoRepeats(blocks[1..], boardOf[1..], id);
      InGroup(blocks[1..], boardOf[1..], id, blocks[0]);
    }
  }

  /** Regrouping keeps exactly the blocks whose board is listed. */
  lemma {:induction false} InRegroup<T>(blocks: seq<T>, boardOf: seq<string>, boardIDs: seq<string>, b: T)
    requires |blocks| == |boardOf|
    ensures b in Regroup(blocks, boardOf, boardIDs)
            <==> exists i :: 0 <= i < |blocks| && blocks[i] == b && boardOf[i] in boardIDs
  {
    if boardIDs == [] {
    } else {
      InGroup(blocks, boardOf, boardIDs[0], b);
      InRegroup(blocks, boardOf, boardIDs[1..], b);
      forall x ensures x in boardIDs <==> x == boardIDs[0] || x in boardIDs[1..] { }
    }
  }

  lemma RegroupMembers<T>(blocks: seq<T>, boardOf: seq<string>, boardIDs: seq<string>)
    requires |blocks| == |boardOf|
    ensures forall k :: 0 <= k < |Regroup(blocks, boardOf, boardIDs)| ==>
              Regroup(blocks, boardOf, boardIDs)[k] in blocks
  {
    forall k | 0 <= k < |Regroup(blocks, boardOf, boardIDs)| ensures Regroup(blocks, boardOf, boardIDs)[k] in blocks {
      InRegroup(blocks, boardOf, boardIDs, Regroup(blocks, boardOf, boardIDs)[k]);
    }
  }

  /** Regrouping keeps each block once. */
  lemma {:induction false} RegroupNoRepeats<T>(blocks: seq<T>, boardOf: seq<string>, boardIDs: seq<string>)
    requires |blocks| == |boardOf| && NoRepeats(blocks) && NoRepeats(boardIDs)
    ensures NoRepeats(Regroup(blocks, boardOf, boardIDs))
  {
    if boardIDs == [] {
    } else {
      var g, rest := Group(blocks, boardOf, boardIDs[0]), Regroup(blocks, boardOf, boardIDs[1..]);
      GroupNoRepeats(blocks, boardOf, boardIDs[0]);
      GroupMembers(blocks, boardOf, boardIDs[0]);
      RegroupNoRepeats(blocks, boardOf, boardIDs[1..]);
      forall i, j | 0 <= i < |g| && 0 <= j < |rest| ensures g[i] != rest[j] {
        assert g[i] in g && rest[j] in rest;
        InGroup(blocks, boardOf, boardIDs[0], g[i]);
        InRegroup(blocks, boardOf, boardIDs[1..], rest[j]);
      }
    }
  }

  /** A block is listed as often as its board. */
  lemma {:induction false} RegroupTimes<T>(blocks: seq<T>, boardOf: seq<string>, boardIDs: seq<string>, k: nat)
    requires |blocks| == |boardOf| && NoRepeats(blocks) && k < |blocks|
    ensures Times(Regroup(blocks, boardOf, boardIDs), blocks[k]) == Times(boardIDs, boardOf[k])
  {
    if boardIDs == [] {
    } else {
      var g, rest := Group(blocks, boardOf, boardIDs[0]), Regroup(blocks, boardOf, boardIDs[1..]);
      RegroupTimes(blocks, boardOf, boardIDs[1..], k);
      TimesJoin(g, rest, blocks[k]);
      GroupNoRepeats(blocks, boardOf, boardIDs[0]);
      GroupMembers(blocks, boardOf, boardIDs[0]);
      TimesIn(g, blocks[k]);
    }
  }

  /** Every place in the regrouped list, and in any list regrouped alongside, is a place in the original. */
  lemma {:induction false} RegroupPlace<T>(blocks: seq<T>, boardOf: seq<string>, boardIDs: seq<string>, n: nat)
    returns (k: nat)
    requires |blocks| == |boardOf| && n < |Regroup(blocks, boardOf, boardIDs)|
    ensures k < |blocks|
    ensures Regroup(blocks, boardOf, boardIDs)[n] == blocks[k]
    ensures |Regroup(boardOf, boardOf, boardIDs)| == |Regroup(blocks, boardOf, boardIDs)|
    ensures Regroup(boardOf, boardOf, boardIDs)[n] == boardOf[k]
  {
    var g, h := Group(blocks, boardOf, boardIDs[0]), Group(boardOf, boardOf, boardIDs[0]);
    GroupLength(blocks, boardOf, boardOf, boardIDs[0]);
    RegroupLength(blocks, boardOf, boardIDs[1..]);
    if n < |g| {
      k := GroupPlace(blocks, boardOf, boardIDs[0], n);
      var l := GroupPlace(boardOf, boardOf, boardIDs[0], n);
    } else {
      k := RegroupPlace(blocks, boardOf, boardIDs[1..], n - |g|);
    }
  }

  lemma {:induction false} GroupLength<T, U>(xs: seq<T>, ys: seq<U>, boardOf: seq<string>, id: string)
    requires |xs| == |ys| == |boardOf|
    ensures |Group(xs, boardOf, id)| == |Group(ys, boardOf, id)|
  {
    if xs == [] {
    } else {
      GroupLength(xs[1..], ys[1..], boardOf[1..], id);
    }
  }

  lemma {:induction false} RegroupLength<T>(blocks: seq<T>, boardOf: seq<string>, boardIDs: seq<string>)
    requires |blocks| == |boardOf|
    ensures |Regroup(boardOf, boardOf, boardIDs)| == |Regroup(blocks, boardOf, boardIDs)|
  {
    if boardIDs == [] {
    } else {
      GroupLength(blocks, boardOf, boardOf, boardIDs[0]);
      RegroupLength(blocks, boardOf, boardIDs[1..]);
    }
  }

  lemma {:induction false} GroupPlace<T>(xs: seq<T>, boardOf: seq<string>, id: string, n: nat) returns (k: nat)
    requires |xs| == |boardOf| && n < |Group(xs, boardOf, id)|
    ensures k < |xs| && Group(xs, boardOf, id)[n] == xs[k]
    ensures boardOf[k] == id
  {
    if boardOf[0] == id && n == 0 {
      k := 0;
    } else {
      k := GroupPlace(xs[1..], boardOf[1..], id, if boardOf[0] == id then n - 1 else n);
      k := k + 1;
    }
  }

  /** How often the board of each regrouped block is listed. */
  ghost function BoardVisits(homes: seq<string>, boardIDs: seq<string>): (r: seq<nat>)
    ensures |r| == |Regroup(homes, homes, boardIDs)|
  {
    seq(|Regroup(homes, homes, boardIDs)|,
        n requires 0 <= n < |Regroup(homes, homes, boardIDs)| => Times(boardIDs, Regroup(homes, homes, boardIDs)[n]))
  }

  /** That is how often the block itself is. */
  lemma VisitsByBoard(blocks: seq<Block>, homes: seq<string>, boardIDs: seq<string>)
    requires |blocks| == |homes| && NoRepeats(blocks)
    ensures Visits(Regroup(blocks, homes, boardIDs)) == BoardVisits(homes, boardIDs)
  {
    var all := Regroup(blocks, homes, boardIDs);
    RegroupLength(blocks, homes, boardIDs);
    forall n | 0 <= n < |all| ensures Times(all, all[n]) == Times(boardIDs, Regroup(homes, homes, boardIDs)[n]) {
      var k := RegroupPlace(blocks, homes, boardIDs, n);
      RegroupTimes(blocks, homes, boardIDs, k);
    }
  }

  lemma {:induction false} RegroupPush<T>(blocks: seq<T>, boardOf: seq<string>, boardIDs: seq<string>, id: string)
    requires |blocks| == |boardOf|
    ensures Regroup(blocks, boardOf, boardIDs + [id]) == Regroup(blocks, boardOf, boardIDs) + Group(blocks, boardOf, id)
  {
    if boardIDs == [] {
      assert boardIDs + [id] == [id];
    } else {
      assert (boardIDs + [id])[1..] == boardIDs[1..] + [id];
      RegroupPush(blocks, boardOf, boardIDs[1..], id);
    }
  }

  /** With no block listed twice, a board's group holds the blocks listed with that board. */
  lemma GroupMembers<T>(blocks: seq<T>, boardOf: seq<string>, id: string)
    requires |blocks| == |boardOf| && NoRepeats(blocks)
    ensures forall k :: 0 <= k < |blocks| ==> (blocks[k] in Group(blocks, boardOf, id) <==> boardOf[k] == id)
    ensures forall j :: 0 <= j < |Group(blocks, boardOf, id)| ==> Group(blocks, boardOf, id)[j] in blocks
  {
    var g := Group(blocks, boardOf, id);
    forall j | 0 <= j < |g| ensures g[j] in blocks {
      assert g[j] in g;
      InGroup(blocks, boardOf, id, g[j]);
    }
    forall k | 0 <= k < |blocks| ensures blocks[k] in Group(blocks, boardOf, id) <==> boardOf[k] == id {
      InGroup(blocks, boardOf, id, blocks[k]);
    }
  }

  /** Regrouping objects and reading them gives the regrouped contents. */
  lemma {:induction false} GroupContents(blocks: seq<Block>, boardOf: seq<string>, id: string)
    requires |blocks| == |boardOf|
    ensures Contents(Group(blocks, boardOf, id)) == Group(Contents(blocks), boardOf, id)
  {
    if blocks == [] {
    } else {
      GroupContents(blocks[1..], boardOf[1..], id);
      assert Contents(blocks)[1..] == Contents(blocks[1..]);
    }
  }

  lemma {:induction false} RegroupContents(blocks: seq<Block>, boardOf: seq<string>, boardIDs: seq<string>)
    requires |blocks| == |boardOf|
    ensures Contents(Regroup(blocks, boardOf, boardIDs)) == Regroup(Contents(blocks), boardOf, boardIDs)
  {
    if boardIDs == [] {
    } else {
      GroupContents(blocks, boardOf, boardIDs[0]);
      RegroupContents(blocks, boardOf, boardIDs[1..]);
    }
  }

  /** A block under the new ID of its board, if its board is listed; the last listing counts. */
  function NewHome(b: BlockData, boardIDs: seq<string>, newIDs: seq<string>): BlockData
    requires |boardIDs| == |newIDs|
  {
    var n := |boardIDs| - 1;
    if n < 0 then b
    else if boardIDs[n] == b.boardID then b.(boardID := newIDs[n])
    else NewHome(b, boardIDs[..n], newIDs[..n])
  }

  function NewHomes(bs: seq<BlockData>, boardIDs: seq<string>, newIDs: seq<string>): (r: seq<BlockData>)
    requires |boardIDs| == |newIDs|
    ensures |r| == |bs|
  {
    seq(|bs|, k requires 0 <= k < |bs| => NewHome(bs[k], boardIDs, newIDs))
  }

  lemma NewHomePush(b: BlockData, boardIDs: seq<string>, newIDs: seq<string>, id: string, newID: string)
    requires |boardIDs| == |newIDs|
    ensures NewHome(b, boardIDs + [id], newIDs + [newID])
         == if b.boardID == id then b.(boardID := newID) else NewHome(b, boardIDs, newIDs)
    ensures NewHome(b, boardIDs, newIDs).(boardID := newID) == b.(boardID := newID)
  {
    assert (boardIDs + [id])[..|boardIDs|] == boardIDs && (newIDs + [newID])[..|newIDs|] == newIDs;
    OnlyBoardMoves(b, boardIDs, newIDs, newID);
  }

  lemma {:induction false} OnlyBoardMoves(b: BlockData, boardIDs: seq<string>, newIDs: seq<string>, newID: string)
    requires |boardIDs| == |newIDs|
    ensures NewHome(b, boardIDs, newIDs).(boardID := newID) == b.(boardID := newID)
  {
    var n := |boardIDs| - 1;
    if n < 0 {
    } else {
      OnlyBoardMoves(b, boardIDs[..n], newIDs[..n], newID);
    }
  }

  /** Sorts the blocks into groups, one for each board ID that occurs. */
  method GroupByBoard(blocks: seq<Block>) returns (blocksByBoard: map<string, seq<Block>>)
    ensures forall id :: (if id in blocksByBoard then blocksByBoard[id] else []) ==
              Group(blocks, Homes(Contents(blocks)), id)
  {
    blocksByBoard := map[];
    ghost var boardOf := Homes(Contents(blocks));
    for i := 0 to |blocks|
      invariant forall id :: (if id in blocksByBoard then blocksByBoard[id] else []) ==
                  Group(blocks[..i], boardOf[..i], id)
    {
      var block := blocks[i];
      forall id ensures Group(blocks[..i + 1], boardOf[..i + 1], id)
                     == Group(blocks[..i], boardOf[..i], id) + if boardOf[i] == id then [block] else []
      {
        assert blocks[..i + 1] == blocks[..i] + [block] && boardOf[..i + 1] == boardOf[..i] + [boardOf[i]];
        GroupPush(blocks[..i], boardOf[..i], block, boardOf[i], id);
      }
      var group := if block.boardID in blocksByBoard then blocksByBoard[block.boardID] else [];
      blocksByBoard := blocksByBoard[block.boardID := group + [block]];
    }
    assert blocks[..|blocks|] == blocks && boardOf[..|blocks|] == boardOf;
  }

  method SetBoard(group: seq<Block>, newID: string)
    requires NoRepeats(group)
    modifies group
    ensures forall m :: 0 <= m < |group| ==> group[m].Data() == old(group[m].Data()).(boardID := newID)
  {
    for j := 0 to |group|
      invariant forall m :: 0 <= m < j ==> group[m].Data() == old(group[m].Data()).(boardID := newID)
      invariant forall m :: j <= m < |group| ==> group[m].Data() == old(group[m].Data())
    {
      group[j].boardID := newID;
    }
  }

  /** Puts the blocks of one board under its new ID. */
  method MoveGroup(group: seq<Block>, newID: string, ghost blocks: seq<Block>, ghost boardOf: seq<string>,
                   ghost id: string)
    requires NoRepeats(blocks) && |boardOf| == |blocks| && group == Group(blocks, boardOf, id)
    modifies blocks
    ensures forall k :: 0 <= k < |blocks| ==>
              blocks[k].Data() == if boardOf[k] == id then old(blocks[k].Data()).(boardID := newID)
                                  else old(blocks[k].Data())
  {
    GroupMembers(blocks, boardOf, id);
    GroupNoRepeats(blocks, boardOf, id);
    SetBoard(group, newID);
    forall k | 0 <= k < |blocks|
      ensures blocks[k].Data() == if boardOf[k] == id then old(blocks[k].Data()).(boardID := newID)
                                  else old(blocks[k].Data())
    {
      if boardOf[k] == id {
        var m :| 0 <= m < |group| && group[m] == blocks[k];
      }
    }
  }

  /** The new board IDs: no repeats, never seen before, prefixed for boards. */
  ghost predicate FreshIDs(newIDs: seq<string>, used: set<string>, now: set<string>) {
    && NoRepeats(newIDs)
    && (forall x :: x in newIDs ==> x !in used && x != "" && x[0] == IdKind(TypeBoard))
    && now == used + set x | x in newIDs
  }

  lemma FreshNext(newIDs: seq<string>, used: set<string>, now: set<string>, newID: string)
    requires FreshIDs(newIDs, used, now) && newID !in now && newID != "" && newID[0] == IdKind(TypeBoard)
    ensures FreshIDs(newIDs + [newID], used, now + {newID})
  {
    assert forall x :: x in newIDs + [newID] <==> x in newIDs || x == newID;
  }

  /** `news` are the boards `olds` under new IDs. */
  ghost predicate Renumbered(olds: seq<Board>, news: seq<Board>) {
    |news| == |olds| && forall i :: 0 <= i < |olds| ==> news[i] == olds[i].(id := news[i].id)
  }

  lemma NewHomesNext(bs: seq<BlockData>, before: seq<BlockData>, after: seq<BlockData>, boardIDs: seq<string>,
                     newIDs: seq<string>, id: string, newID: string)
    requires |boardIDs| == |newIDs| && before == NewHomes(bs, boardIDs, newIDs)
    requires |after| == |bs|
    requires forall k :: 0 <= k < |bs| ==>
               after[k] == if bs[k].boardID == id then before[k].(boardID := newID) else before[k]
    ensures after == NewHomes(bs, boardIDs + [id], newIDs + [newID])
  {
    forall k | 0 <= k < |bs| ensures after[k] == NewHome(bs[k], boardIDs + [id], newIDs + [newID]) {
      NewHomePush(bs[k], boardIDs, newIDs, id, newID);
    }
  }

  /** One round of the loop below: a new ID for a board, and its blocks there. */
  method MoveBoard(id: string, blocks: seq<Block>, group: seq<Block>, ids: IdSupply, ghost bs: seq<BlockData>,
                   ghost boardIDs: seq<string>, ghost newIDs: seq<string>, ghost used: set<string>)
    returns (newID: string)
    requires NoRepeats(blocks) && |bs| == |blocks| && group == Group(blocks, Homes(bs), id)
    requires |boardIDs| == |newIDs| && Contents(blocks) == NewHomes(bs, boardIDs, newIDs)
    requires ids.Valid() && FreshIDs(newIDs, used, ids.used)
    modifies ids, blocks
    ensures ids.Valid() && FreshIDs(newIDs + [newID], used, ids.used)
    ensures Contents(blocks) == NewHomes(bs, boardIDs + [id], newIDs + [newID])
  {
    ghost var now, before := ids.used, Contents(blocks);
    newID := ids.NewID(IdKind(TypeBoard));
    FreshNext(newIDs, used, now, newID);
    assert Contents(blocks) == before;
    MoveGroup(group, newID, blocks, Homes(bs), id);
    NewHomesNext(bs, before, Contents(blocks), boardIDs, newIDs, id, newID);
  }

  lemma BoardIDsNext(boards: seq<Board>, i: nat, newBoards: seq<Board>, newID: string)
    requires i < |boards| && Renumbered(boards[..i], newBoards)
    ensures BoardIDs(boards)[..i + 1] == BoardIDs(boards)[..i] + [boards[i].id]
    ensures BoardIDs(newBoards + [boards[i].(id := newID)]) == BoardIDs(newBoards) + [newID]
    ensures Renumbered(boards[..i + 1], newBoards + [boards[i].(id := newID)])
  {
    assert BoardIDs(boards)[i] == boards[i].id;
  }

  /** Gives every board a new ID and moves its blocks there.  The blocks come back board by board. */
  method MoveBoards(boards: seq<Board>, blocks: seq<Block>, blocksByBoard: map<string, seq<Block>>, ids: IdSupply,
                    ghost bs: seq<BlockData>)
    returns (newBoards: seq<Board>, newBlocks: seq<Block>)
    requires NoRepeats(blocks) && bs == Contents(blocks)
    requires forall id :: (if id in blocksByBoard then blocksByBoard[id] else []) == Group(blocks, Homes(bs), id)
    requires ids.Valid()
    modifies ids, blocks
    ensures ids.Valid() && FreshIDs(BoardIDs(newBoards), old(ids.used), ids.used)
    ensures Renumbered(boards, newBoards)
    ensures newBlocks == Regroup(blocks, Homes(bs), BoardIDs(boards))
    ensures Contents(blocks) == NewHomes(bs, BoardIDs(boards), BoardIDs(newBoards))
  {
    newBoards, newBlocks := [], [];
    ghost var oldIDs := BoardIDs(boards);
    for i := 0 to |boards|
      invariant ids.Valid() && FreshIDs(BoardIDs(newBoards), old(ids.used), ids.used)
      invariant Renumbered(boards[..i], newBoards)
      invariant newBlocks == Regroup(blocks, Homes(bs), oldIDs[..i])
      invariant Contents(blocks) == NewHomes(bs, oldIDs[..i], BoardIDs(newBoards))
    {
      var board := boards[i];
      var group := if board.id in blocksByBoard then blocksByBoard[board.id] else [];
      ghost var newIDs := BoardIDs(newBoards);
      assert |newIDs| == i;
      var newID := MoveBoard(board.id, blocks, group, ids, bs, oldIDs[..i], newIDs, old(ids.used));
      RegroupPush(blocks, Homes(bs), oldIDs[..i], board.id);
      newBlocks := newBlocks + group;
      BoardIDsNext(boards, i, newBoards, newID);
      newBoards := newBoards + [board.(id := newID)];
    }
    assert oldIDs[..|boards|] == oldIDs && boards[..|boards|] == boards;
  }

  /** What new IDs for everything mean: boards under fresh IDs, in order; the blocks board by board,
      each under its board's new ID, re-issued together, as often as the board is listed. */
  ghost predicate Regenerated(boards: seq<Board>, bs: seq<BlockData>, newBoards: seq<Board>, news: seq<BlockData>,
                              ren: map<string, string>, used: set<string>, now: set<string>) {
    && Renumbered(boards, newBoards)
    && FreshIDs(BoardIDs(newBoards), used, now)
    && ReissuedAll(BoardVisits(Homes(bs), BoardIDs(boards)),
                   Regroup(NewHomes(bs, BoardIDs(boards), BoardIDs(newBoards)), Homes(bs), BoardIDs(boards)), news,
                     ren, now)
    && (NoRepeats(BoardIDs(boards)) ==> Reissued(Regroup(NewHomes(bs, BoardIDs(boards), BoardIDs(newBoards)),
         Homes(bs), BoardIDs(boards)), news, ren, now))
  }

  /** Validates, then gives new IDs to all boards and blocks. */
  method GenerateBoardsAndBlocksIDs(boards: seq<Board>, blocks: seq<Block>, ids: IdSupply)
    returns (r: Outcome, newBoards: seq<Board>, newBlocks: seq<Block>, ghost ren: map<string, string>,
             ghost now: set<string>)
    requires NoRepeats(blocks) && ids.Valid()
    modifies ids, blocks
    ensures r.Valid? <==> boards != [] && blocks != [] && AllHoused(old(Contents(blocks)), BoardIDs(boards))
    ensures r.Failed? ==> newBoards == [] && newBlocks == [] && unchanged(ids) && unchanged(blocks)
    ensures r.Valid? ==> newBlocks == Regroup(blocks, Homes(old(Contents(blocks))), BoardIDs(boards))
    ensures r.Valid? ==> Regenerated(boards, old(Contents(blocks)), newBoards, Contents(newBlocks), ren,
              old(ids.used), now)
  {
    newBoards, newBlocks, ren, now := [], [], map[], {};
    r := IsValid(boards, blocks);
    if r.Failed? {
      return;
    }
    ghost var bs, used := Contents(blocks), ids.used;
    var blocksByBoard := GroupByBoard(blocks);
    newBoards, newBlocks := MoveBoards(boards, blocks, blocksByBoard, ids, bs);
    now := ids.used;
    RegroupMembers(blocks, Homes(bs), BoardIDs(boards));
    VisitsByBoard(blocks, Homes(bs), BoardIDs(boards));
    if NoRepeats(BoardIDs(boards)) {
      RegroupNoRepeats(blocks, Homes(bs), BoardIDs(boards));
    }
    RegroupContents(blocks, Homes(bs), BoardIDs(boards));
    newBlocks, ren := GenerateBlockIDs(newBlocks, ids);
  }

  // ----- boards listed more than once

  lemma {:induction false} NewHomeMentions(b: BlockData, boardIDs: seq<string>, newIDs: seq<string>)
    requires |boardIDs| == |newIDs|
    ensures Mentions(NewHome(b, boardIDs, newIDs)) <= Mentions(b) + set x | x in newIDs
  {
    var n := |boardIDs| - 1;
    if n < 0 {
    } else {
      NewHomeMentions(b, boardIDs[..n], newIDs[..n]);
    }
  }

  lemma RegroupedMentions(bs: seq<BlockData>, boardIDs: seq<string>, newIDs: seq<string>, used: set<string>)
    requires |boardIDs| == |newIDs| && Mentioned(bs) <= used
    ensures Mentioned(Regroup(NewHomes(bs, boardIDs, newIDs), Homes(bs), boardIDs)) <= used + set x | x in newIDs
  {
    var moved := Regroup(NewHomes(bs, boardIDs, newIDs), Homes(bs), boardIDs);
    forall n | 0 <= n < |moved| ensures Mentions(moved[n]) <= used + set x | x in newIDs {
      var k := RegroupPlace(NewHomes(bs, boardIDs, newIDs), Homes(bs), boardIDs, n);
      NewHomeMentions(bs[k], boardIDs, newIDs);
      MentionedAt(bs, k);
    }
  }

  lemma VisitedAtLeastOnce(homes: seq<string>, boardIDs: seq<string>, n: nat)
    requires n < |BoardVisits(homes, boardIDs)|
    ensures BoardVisits(homes, boardIDs)[n] >= 1
  {
    var h := Regroup(homes, homes, boardIDs)[n];
    InRegroup(homes, homes, boardIDs, h);
    TimesIn(boardIDs, h);
  }

  /** The blocks of a board that is listed more than once come out as often, and every link to them is
      lost: no block names one of them by its new ID. */
  lemma RepeatedBoardLosesLinks(boards: seq<Board>, bs: seq<BlockData>, newBoards: seq<Board>, news: seq<BlockData>,
                                ren: map<string, string>, used: set<string>, now: set<string>, i: nat, j: nat)
    requires Regenerated(boards, bs, newBoards, news, ren, used, now) && Mentioned(bs) <= used
    requires i < |news| && j < |news| && BoardVisits(Homes(bs), BoardIDs(boards))[j] >= 2
    ensures news[j].id !in Links(news[i])
  {
    RegroupedMentions(bs, BoardIDs(boards), BoardIDs(newBoards), used);
    VisitedAtLeastOnce(Homes(bs), BoardIDs(boards), i);
    RepeatedLosesLinks(BoardVisits(Homes(bs), BoardIDs(boards)),
                       Regroup(NewHomes(bs, BoardIDs(boards), BoardIDs(newBoards)), Homes(bs), BoardIDs(boards)),
                       news, ren, now, i, j);
  }

  /** A block under a listed board moves under the new ID of that board, in its last listing. */
  lemma {:induction false} NewHomeIs(b: BlockData, boardIDs: seq<string>, newIDs: seq<string>) returns (p: nat)
    requires |boardIDs| == |newIDs| && b.boardID in boardIDs
    ensures p < |boardIDs| && boardIDs[p] == b.boardID
    ensures forall q :: p < q < |boardIDs| ==> boardIDs[q] != b.boardID
    ensures NewHome(b, boardIDs, newIDs) == b.(boardID := newIDs[p])
    decreases |boardIDs|
  {
    var n := |boardIDs| - 1;
    if boardIDs[n] == b.boardID {
      p := n;
    } else {
      p := NewHomeIs(b, boardIDs[..n], newIDs[..n]);
    }
  }

  /** The block at a place comes from one of the blocks, and is under the new ID of that block's board. */
  ghost predicate Rehoused(boards: seq<Board>, bs: seq<BlockData>, newBoards: seq<Board>, b: BlockData)
    requires |newBoards| == |boards|
  {
    exists j, p :: 0 <= j < |bs| && 0 <= p < |boards| && bs[j].boardID == boards[p].id
      && b.boardID == newBoards[p].id && b.kind == bs[j].kind && b.meta == bs[j].meta
  }

  /** Every new block is under the new ID of the board it was under. */
  lemma HomesFollow(boards: seq<Board>, bs: seq<BlockData>, newBoards: seq<Board>, news: seq<BlockData>,
                    ren: map<string, string>, used: set<string>, now: set<string>, k: nat)
    requires Regenerated(boards, bs, newBoards, news, ren, used, now) && Mentioned(bs) <= used && k < |news|
    ensures Rehoused(boards, bs, newBoards, news[k])
  {
    var olds, ids, homes := BoardIDs(boards), BoardIDs(newBoards), Homes(bs);
    var moved := Regroup(NewHomes(bs, olds, ids), homes, olds);
    var j := RegroupPlace(NewHomes(bs, olds, ids), homes, olds, k);
    RegroupLength(NewHomes(bs, olds, ids), homes, olds);
    InRegroup(homes, homes, olds, homes[j]);
    var p := NewHomeIs(bs[j], olds, ids);
    VisitedAtLeastOnce(homes, olds, k);
    RegroupedMentions(bs, olds, ids, used);
    MovedIDsUsed(bs, olds, ids, used);
    assert news[k] == LinksRenamed(moved[k], news[k].id, ren);
    assert ids[p] !in ren;
    assert bs[j].boardID == boards[p].id && news[k].boardID == newBoards[p].id;
  }

  lemma MovedIDsUsed(bs: seq<BlockData>, boardIDs: seq<string>, newIDs: seq<string>, used: set<string>)
    requires |boardIDs| == |newIDs| && Mentioned(bs) <= used
    ensures BlockIDs(Regroup(NewHomes(bs, boardIDs, newIDs), Homes(bs), boardIDs)) <= used
  {
    var moved := Regroup(NewHomes(bs, boardIDs, newIDs), Homes(bs), boardIDs);
    forall n | 0 <= n < |moved| ensures moved[n].id in used {
      var k := RegroupPlace(NewHomes(bs, boardIDs, newIDs), Homes(bs), boardIDs, n);
      if bs[k].boardID in boardIDs {
        var p := NewHomeIs(bs[k], boardIDs, newIDs);
      } else {
        NewHomeNone(bs[k], boardIDs, newIDs);
      }
      MentionedAt(bs, k);
      assert bs[k].id in Mentions(bs[k]);
    }
  }

  lemma NewHomeNone(b: BlockData, boardIDs: seq<string>, newIDs: seq<string>)
    requires |boardIDs| == |newIDs| && b.boardID !in boardIDs
    ensures NewHome(b, boardIDs, newIDs) == b
    decreases |boardIDs|
  {
  }
}
