/** Exporting a board to an archive directory and importing it again: the line writers, the line
    state machine that reads them, and the new IDs the import gives. */
module ServerArchive {
  import opened Lines
  import opened Ids
  import opened BlockIds
  import opened BoardsAndBlocks
  import opened Sequences
  import M = Members

  datatype LineType = BoardLine | BoardBlockLine | BlockLine | MemberLine | OtherLine(name: string)

  /** One archive line; `data` is itself JSON text. */
  datatype ArchiveLine = ArchiveLine(kind: LineType, data: string)

  datatype Codecs = Codecs(line: Codec<ArchiveLine>, board: Codec<Board>, block: Codec<BlockData>,
                           member: Codec<M.Member>)

  /** How the first line of an old archive begins. */
  const LEGACY_FILE_BEGIN := "{\"version\":1"

  /** The codecs are faithful, and a line is never mistaken for an old header. */
  ghost predicate Faithful(c: Codecs) {
    && c.line.Valid() && c.board.Valid() && c.block.Valid() && c.member.Valid()
    && forall l :: !(LEGACY_FILE_BEGIN <= c.line.encode(l))
  }

  // ----- export

  function BoardText(b: Board, c: Codecs): string {
    c.line.encode(ArchiveLine(BoardLine, c.board.encode(b)))
  }

  function BlockTexts(bs: seq<BlockData>, c: Codecs): (r: seq<string>)
    ensures |r| == |bs|
  {
    seq(|bs|, i requires 0 <= i < |bs| => c.line.encode(ArchiveLine(BlockLine, c.block.encode(bs[i]))))
  }

  function MemberTexts(ms: seq<M.Member>, c: Codecs): (r: seq<string>)
    ensures |r| == |ms|
  {
    seq(|ms|, i requires 0 <= i < |ms| => c.line.encode(ArchiveLine(MemberLine, c.member.encode(ms[i]))))
  }

  function ExportLines(board: Board, blocks: seq<BlockData>, members: seq<M.Member>, c: Codecs): seq<string> {
    [BoardText(board, c)] + BlockTexts(blocks, c) + MemberTexts(members, c)
  }

  predicate ShowsFile(b: BlockData) {
    b.kind == TypeImage || b.kind == TypeAttachment
  }

  /** The uploaded files the blocks show, in order. */
  function FilesOf(bs: seq<BlockData>): seq<string>
    requires forall b :: b in bs && ShowsFile(b) ==> b.meta.file.File?
  {
    if bs == [] then []
    else (if ShowsFile(bs[0]) then [bs[0].meta.file.name] else []) + FilesOf(bs[1..])
  }

  lemma {:induction false} FilesPush(bs: seq<BlockData>, b: BlockData)
    requires forall x :: x in bs + [b] && ShowsFile(x) ==> x.meta.file.File?
    ensures FilesOf(bs + [b]) == FilesOf(bs) + if ShowsFile(b) then [b.meta.file.name] else []
  {
    if bs == [] {
      assert bs + [b] == [b];
    } else {
      assert (bs + [b])[1..] == bs[1..] + [b];
      FilesPush(bs[1..], b);
    }
  }

  /** Writes the lines of a board: the board, its blocks, its members.  It fails exactly if an image
      or attachment block names no file. */
  method WriteArchiveBoard(board: Board, blocks: seq<BlockData>, boardMembers: seq<M.Member>, c: Codecs)
    returns (ok: bool, text: string, files: seq<string>)
    ensures ok <==> forall b :: b in blocks && ShowsFile(b) ==> b.meta.file.File?
    ensures ok ==> text == Unlines(ExportLines(board, blocks, boardMembers, c)) && files == FilesOf(blocks)
  {
    ghost var head, ks, ms := [BoardText(board, c)], BlockTexts(blocks, c), MemberTexts(boardMembers, c);
    text := BoardText(board, c) + "\n";
    assert Unlines(head) == text + Unlines([]) == text;
    files := [];
    for i := 0 to |blocks|
      invariant text == Unlines(head + ks[..i])
      invariant forall b :: b in blocks[..i] && ShowsFile(b) ==> b.meta.file.File?
      invariant files == FilesOf(blocks[..i])
    {
      var block := blocks[i];
      assert head + ks[..i + 1] == head + ks[..i] + [ks[i]];
      UnlinesPush(head + ks[..i], ks[i]);
      text := text + c.line.encode(ArchiveLine(BlockLine, c.block.encode(block)));
      text := text + "\n";
      assert blocks[..i + 1] == blocks[..i] + [block];
      if ShowsFile(block) {
        if block.meta.file.NoFile? {
          return false, text, files;
        }
        FilesPush(blocks[..i], block);
        files := files + [block.meta.file.name];
      } else {
        FilesPush(blocks[..i], block);
      }
    }
    assert blocks[..|blocks|] == blocks && head + ks[..|blocks|] == head + ks == head + ks + ms[..0];
    for i := 0 to |boardMembers|
      invariant text == Unlines(head + ks + ms[..i])
    {
      assert head + ks + ms[..i + 1] == head + ks + ms[..i] + [ms[i]];
      UnlinesPush(head + ks + ms[..i], ms[i]);
      text := text + c.line.encode(ArchiveLine(MemberLine, c.member.encode(boardMembers[i])));
      text := text + "\n";
    }
    assert head + ks + ms[..|boardMembers|] == head + ks + ms;
    ok := true;
  }

  // ----- reading

  /** Who imports, into which team, and when. */
  datatype ImportOptions = ImportOptions(teamID: string, modifiedBy: string, now: int)

  /** The author recorded in the imported content: nobody for the single-user account. */
  function Author(opt: ImportOptions): string {
    if opt.modifiedBy == "single-user" then "" else opt.modifiedBy
  }

  function Stamp(m: Meta, opt: ImportOptions): Meta {
    m.(modifiedBy := Author(opt), updateAt := opt.now)
  }

  function ImportedBoard(b: Board, opt: ImportOptions): Board {
    b.(teamID := opt.teamID, meta := Stamp(b.meta, opt))
  }

  function ImportedBlock(b: BlockData, boardID: string, opt: ImportOptions): BlockData {
    b.(boardID := boardID, meta := Stamp(b.meta, opt))
  }

  /** A board that an old archive holds as a block. */
  function BoardOfBlock(b: BlockData, opt: ImportOptions): Board {
    Board(b.id, opt.teamID, Stamp(b.meta, opt))
  }

  /** What has been read so far. */
  datatype Reading = Reading(boards: seq<Board>, blocks: seq<BlockData>, members: seq<M.Member>, boardID: string,
                             firstLine: bool)

  /** Parse failures. */
  datatype ReadError =
    | BadLine | BadBoard | BadBoardBlock | NotABoard | BadBlock | BadMember | UnsupportedType(name: string)

  /** The outcome of reading; a failure comes with the number of a line. */
  datatype ReadResult = Read(state: Reading) | Unreadable(line: nat, error: ReadError)

  const START := Reading([], [], [], "", true)

  /** One line of input. */
  function ReadLine(st: Reading, raw: string, opt: ImportOptions, c: Codecs): ReadResult {
    var line := TrimSpace(raw);
    if line == "" || (st.firstLine && LEGACY_FILE_BEGIN <= line) then Read(st)
    else match c.line.decode(line)
      case None => Unreadable(1, BadLine)
      case Some(l) =>
        var kind := if st.firstLine && l.kind == BlockLine then BoardBlockLine else l.kind;
        ReadData(st.(firstLine := false), kind, l.data, opt, c)
  }

  function ReadData(st: Reading, kind: LineType, data: string, opt: ImportOptions, c: Codecs): ReadResult {
    match kind
    case BoardLine =>
      (match c.board.decode(data)
       case None => Unreadable(1, BadBoard)
       case Some(b) => Read(st.(boards := st.boards + [ImportedBoard(b, opt)], boardID := b.id)))
    case BoardBlockLine =>
      (match c.block.decode(data)
       case None => Unreadable(1, BadBoardBlock)
       case Some(b) =>
         if b.kind != TypeBoard then Unreadable(1, NotABoard)
         else Read(st.(boards := st.boards + [BoardOfBlock(b, opt)], boardID := b.id)))
    case BlockLine =>
      (match c.block.decode(data)
       case None => Unreadable(1, BadBlock)
       case Some(b) => Read(st.(blocks := st.blocks + [ImportedBlock(b, st.boardID, opt)])))
    case MemberLine =>
      (match c.member.decode(data)
       case None => Unreadable(1, BadMember)
       case Some(m) => Read(st.(members := st.members + [m])))
    case OtherLine(name) => Unreadable(1, UnsupportedType(name))
  }

  function ReadLines(st: Reading, lines: seq<string>, opt: ImportOptions, c: Codecs): ReadResult
    decreases |lines|
  {
    if lines == [] then Read(st)
    else match ReadLine(st, lines[0], opt, c)
      case Unreadable(line, e) => Unreadable(line, e)
      case Read(next) => ReadLines(next, lines[1..], opt, c)
  }

  // ----- what reading gives, line by line

  predicate IsTag(line: string) {
    LEGACY_FILE_BEGIN <= TrimSpace(line)
  }

  predicate IsBlank(line: string) {
    TrimSpace(line) == ""
  }

  /** The line is read: it is not blank, and not before every line that is neither blank nor an old tag. */
  predicate IsRead(lines: seq<string>, i: nat)
    requires i < |lines|
  {
    !IsBlank(lines[i]) && exists j :: 0 <= j <= i && !IsBlank(lines[j]) && !IsTag(lines[j])
  }

  predicate IsFirstRead(lines: seq<string>, i: nat)
    requires i < |lines|
  {
    IsRead(lines, i) && forall j: nat :: j < i ==> !IsRead(lines, j)
  }

  /** What the line is taken for; the first block is taken for a board. */
  function KindAt(lines: seq<string>, i: nat, c: Codecs): LineType
    requires i < |lines|
  {
    match c.line.decode(TrimSpace(lines[i]))
    case None => OtherLine("")
    case Some(l) => if IsFirstRead(lines, i) && l.kind == BlockLine then BoardBlockLine else l.kind
  }

  function DataAt(lines: seq<string>, i: nat, c: Codecs): string
    requires i < |lines|
  {
    match c.line.decode(TrimSpace(lines[i])) case None => "" case Some(l) => l.data
  }

  predicate IsReadable(lines: seq<string>, i: nat, c: Codecs)
    requires i < |lines|
  {
    && c.line.decode(TrimSpace(lines[i])).Some?
    && match KindAt(lines, i, c)
       case BoardLine => c.board.decode(DataAt(lines, i, c)).Some?
       case BoardBlockLine =>
         var b := c.block.decode(DataAt(lines, i, c));
         b.Some? && b.value.kind == TypeBoard
       case BlockLine => c.block.decode(DataAt(lines, i, c)).Some?
       case MemberLine => c.member.decode(DataAt(lines, i, c)).Some?
       case OtherLine(_) => false
  }

  const BOARD_LINES := {BoardLine, BoardBlockLine}

  /** The line is read, and taken for one of these kinds. */
  predicate IsTaken(lines: seq<string>, i: nat, c: Codecs, kinds: set<LineType>)
    requires i < |lines|
  {
    IsRead(lines, i) && KindAt(lines, i, c) in kinds
  }

  /** Changed by the importing user, who is nobody if single, and now; the rest as read. */
  predicate Stamped(was: Meta, now: Meta, opt: ImportOptions) {
    && now.modifiedBy == (if opt.modifiedBy == "single-user" then "" else opt.modifiedBy)
    && now.updateAt == opt.now && now.file == was.file && now.body == was.body
  }

  /** The board a line makes: under the importing team, stamped, and otherwise as the line has it. */
  predicate BoardFrom(lines: seq<string>, i: nat, b: Board, opt: ImportOptions, c: Codecs)
    requires i < |lines|
  {
    && b.teamID == opt.teamID
    && if KindAt(lines, i, c) == BoardLine then
         var d := c.board.decode(DataAt(lines, i, c));
         d.Some? && b.id == d.value.id && Stamped(d.value.meta, b.meta, opt)
       else
         var d := c.block.decode(DataAt(lines, i, c));
         d.Some? && b.id == d.value.id && Stamped(d.value.meta, b.meta, opt)
  }

  /** The block a line makes: stamped, and otherwise as the line has it, except for its board. */
  predicate BlockFrom(lines: seq<string>, i: nat, b: BlockData, opt: ImportOptions, c: Codecs)
    requires i < |lines|
  {
    var d := c.block.decode(DataAt(lines, i, c));
    && d.Some? && b.id == d.value.id && b.kind == d.value.kind && b.parentID == d.value.parentID
    && b.contentOrder == d.value.contentOrder && b.cardOrder == d.value.cardOrder
    && b.defaultTemplateId == d.value.defaultTemplateId && Stamped(d.value.meta, b.meta, opt)
  }

  /** The places, in order, of the first `n` lines that are taken for these kinds. */
  ghost predicate PlacesOf(lines: seq<string>, n: nat, c: Codecs, kinds: set<LineType>, xs: seq<nat>)
    requires n <= |lines|
  {
    && (forall i, j :: 0 <= i < j < |xs| ==> xs[i] < xs[j])
    && (forall i :: 0 <= i < |xs| ==> xs[i] < n)
    && forall i: nat :: i < n ==> (i in xs <==> IsTaken(lines, i, c, kinds))
  }

  ghost predicate BoardsFrom(lines: seq<string>, opt: ImportOptions, c: Codecs, boards: seq<Board>, bs: seq<nat>) {
    |boards| == |bs| && forall k :: 0 <= k < |bs| ==> bs[k] < |lines| && BoardFrom(lines, bs[k], boards[k], opt, c)
  }

  ghost predicate BlocksFrom(lines: seq<string>, opt: ImportOptions, c: Codecs, blocks: seq<BlockData>, ks: seq<nat>) {
    |blocks| == |ks| && forall k :: 0 <= k < |ks| ==> ks[k] < |lines| && BlockFrom(lines, ks[k], blocks[k], opt, c)
  }

  ghost predicate MembersFrom(lines: seq<string>, c: Codecs, members: seq<M.Member>, ms: seq<nat>) {
    && |members| == |ms|
    && forall k :: 0 <= k < |ms| ==>
         ms[k] < |lines| && c.member.decode(DataAt(lines, ms[k], c)) == Some(members[k])
  }

  /** The ID of the last board made before line `i`, if any. */
  predicate LastBoard(boards: seq<Board>, bs: seq<nat>, i: nat, id: string)
    requires |bs| == |boards|
  {
    && (bs == [] || bs[0] >= i ==> id == "")
    && forall k :: 0 <= k < |bs| && bs[k] < i && (k + 1 == |bs| || bs[k + 1] >= i) ==> id == boards[k].id
  }

  ghost predicate Homed(st: Reading, bs: seq<nat>, ks: seq<nat>)
    requires |bs| == |st.boards| && |ks| == |st.blocks|
  {
    forall k :: 0 <= k < |ks| ==> LastBoard(st.boards, bs, ks[k], st.blocks[k].boardID)
  }

  /** The first `n` lines were read: the lines `bs` made the boards, `ks` the blocks, `ms` the members, each in
      order, and each block is under the last board before it. */
  ghost predicate Traced(lines: seq<string>, n: nat, opt: ImportOptions, c: Codecs, st: Reading,
                         bs: seq<nat>, ks: seq<nat>, ms: seq<nat>)
    requires n <= |lines|
  {
    && PlacesOf(lines, n, c, BOARD_LINES, bs) && BoardsFrom(lines, opt, c, st.boards, bs)
    && PlacesOf(lines, n, c, {BlockLine}, ks) && BlocksFrom(lines, opt, c, st.blocks, ks)
    && PlacesOf(lines, n, c, {MemberLine}, ms) && MembersFrom(lines, c, st.members, ms)
    && Homed(st, bs, ks) && LastBoard(st.boards, bs, n, st.boardID)
  }

  ghost predicate TracedTo(lines: seq<string>, n: nat, opt: ImportOptions, c: Codecs, st: Reading)
    requires n <= |lines|
  {
    exists bs, ks, ms :: Traced(lines, n, opt, c, st, bs, ks, ms)
  }

  ghost predicate FromLines(lines: seq<string>, opt: ImportOptions, c: Codecs, st: Reading) {
    TracedTo(lines, |lines|, opt, c, st)
  }

  ghost predicate AllReadable(lines: seq<string>, n: nat, c: Codecs)
    requires n <= |lines|
  {
    forall i: nat :: i < n && IsRead(lines, i) ==> IsReadable(lines, i, c)
  }

  lemma {:induction false} ReadPush(st: Reading, ls: seq<string>, l: string, opt: ImportOptions, c: Codecs)
    ensures ReadLines(st, ls + [l], opt, c) ==
              match ReadLines(st, ls, opt, c)
              case Unreadable(n, e) => Unreadable(n, e)
              case Read(next) => ReadLine(next, l, opt, c)
    decreases |ls|
  {
    if ls == [] {
      assert ls + [l] == [l] && [l][1..] == [];
    } else {
      assert (ls + [l])[1..] == ls[1..] + [l];
      if ReadLine(st, ls[0], opt, c).Read? {
        ReadPush(ReadLine(st, ls[0], opt, c).state, ls[1..], l, opt, c);
      }
    }
  }

  /** The state before any line is read. */
  ghost predicate NoneRead(lines: seq<string>, n: nat)
    requires n <= |lines|
  {
    forall i: nat :: i < n ==> !IsRead(lines, i)
  }

  lemma ReadOne(lines: seq<string>, n: nat, opt: ImportOptions, c: Codecs, st: Reading)
    requires n < |lines| && (st.firstLine <==> NoneRead(lines, n))
    ensures !IsRead(lines, n) ==> ReadLine(st, lines[n], opt, c) == Read(st)
    ensures IsRead(lines, n) ==> (ReadLine(st, lines[n], opt, c).Read? <==> IsReadable(lines, n, c))
    ensures IsRead(lines, n) && IsReadable(lines, n, c) ==>
              ReadLine(st, lines[n], opt, c) ==
                ReadData(st.(firstLine := false), KindAt(lines, n, c), DataAt(lines, n, c), opt, c)
  {
    assert IsRead(lines, n) ==> (st.firstLine <==> IsFirstRead(lines, n));
    if !IsBlank(lines[n]) && !IsRead(lines, n) {
      assert IsTag(lines[n]);
      forall i: nat | i < n ensures !IsRead(lines, i) {
      }
    }
    if IsRead(lines, n) && IsTag(lines[n]) {
      var j :| 0 <= j <= n && !IsBlank(lines[j]) && !IsTag(lines[j]);
      assert IsRead(lines, j);
    }
  }

  lemma PlacesPush(lines: seq<string>, n: nat, c: Codecs, kinds: set<LineType>, xs: seq<nat>)
    requires n < |lines| && PlacesOf(lines, n, c, kinds, xs) && IsTaken(lines, n, c, kinds)
    ensures PlacesOf(lines, n + 1, c, kinds, xs + [n])
  {
  }

  lemma PlacesStay(lines: seq<string>, n: nat, c: Codecs, kinds: set<LineType>, xs: seq<nat>)
    requires n < |lines| && PlacesOf(lines, n, c, kinds, xs) && !IsTaken(lines, n, c, kinds)
    ensures PlacesOf(lines, n + 1, c, kinds, xs)
  {
  }

  lemma HomedBoard(st: Reading, bs: seq<nat>, ks: seq<nat>, next: Reading, m: nat, b: Board)
    requires |bs| == |st.boards| && |ks| == |st.blocks| && Homed(st, bs, ks)
    requires next.boards == st.boards + [b] && next.blocks == st.blocks
    requires (forall k :: 0 <= k < |bs| ==> bs[k] < m) && (forall k :: 0 <= k < |ks| ==> ks[k] < m)
    ensures Homed(next, bs + [m], ks)
  {
    forall k | 0 <= k < |ks| ensures LastBoard(next.boards, bs + [m], ks[k], next.blocks[k].boardID) {
      LastBoardNext(st.boards, bs, ks[k], st.blocks[k].boardID, m, b);
    }
  }

  lemma HomedBlock(st: Reading, bs: seq<nat>, ks: seq<nat>, next: Reading, m: nat, b: BlockData)
    requires |bs| == |st.boards| && |ks| == |st.blocks| && Homed(st, bs, ks)
    requires next.boards == st.boards && next.blocks == st.blocks + [b]
    requires LastBoard(st.boards, bs, m, b.boardID)
    ensures Homed(next, bs, ks + [m])
  {
    forall k | 0 <= k < |ks| + 1 ensures LastBoard(next.boards, bs, (ks + [m])[k], next.blocks[k].boardID) {
      assert k < |ks| ==> LastBoard(st.boards, bs, ks[k], st.blocks[k].boardID);
    }
  }

  lemma LastBoardNext(boards: seq<Board>, bs: seq<nat>, i: nat, id: string, n: nat, b: Board)
    requires |bs| == |boards| && LastBoard(boards, bs, i, id) && i <= n
    requires forall k :: 0 <= k < |bs| ==> bs[k] < n
    ensures LastBoard(boards + [b], bs + [n], i, id)
    ensures LastBoard(boards + [b], bs + [n], n + 1, b.id)
  {
  }

  lemma LastBoardLater(boards: seq<Board>, bs: seq<nat>, n: nat, id: string)
    requires |bs| == |boards| && LastBoard(boards, bs, n, id)
    requires forall k :: 0 <= k < |bs| ==> bs[k] < n
    ensures LastBoard(boards, bs, n + 1, id)
  {
  }

  lemma TracedSkip(lines: seq<string>, m: nat, opt: ImportOptions, c: Codecs, st: Reading)
    requires m < |lines| && TracedTo(lines, m, opt, c, st) && !IsRead(lines, m)
    ensures TracedTo(lines, m + 1, opt, c, st)
  {
    var bs, ks, ms :| Traced(lines, m, opt, c, st, bs, ks, ms);
    PlacesStay(lines, m, c, BOARD_LINES, bs);
    PlacesStay(lines, m, c, {BlockLine}, ks);
    PlacesStay(lines, m, c, {MemberLine}, ms);
    LastBoardLater(st.boards, bs, m, st.boardID);
    assert Traced(lines, m + 1, opt, c, st, bs, ks, ms);
  }

  lemma BoardRead(lines: seq<string>, m: nat, opt: ImportOptions, c: Codecs, st: Reading, b: Board,
                  bs: seq<nat>, ks: seq<nat>, ms: seq<nat>)
    requires m < |lines| && Traced(lines, m, opt, c, st, bs, ks, ms) && IsTaken(lines, m, c, BOARD_LINES)
    requires BoardFrom(lines, m, b, opt, c)
    ensures Traced(lines, m + 1, opt, c, st.(firstLine := false, boards := st.boards + [b], boardID := b.id),
                   bs + [m], ks, ms)
  {
    PlacesPush(lines, m, c, BOARD_LINES, bs);
    PlacesStay(lines, m, c, {BlockLine}, ks);
    PlacesStay(lines, m, c, {MemberLine}, ms);
    LastBoardNext(st.boards, bs, m, st.boardID, m, b);
    HomedBoard(st, bs, ks, st.(firstLine := false, boards := st.boards + [b], boardID := b.id), m, b);
  }

  lemma BlockRead(lines: seq<string>, m: nat, opt: ImportOptions, c: Codecs, st: Reading, b: BlockData,
                  bs: seq<nat>, ks: seq<nat>, ms: seq<nat>)
    requires m < |lines| && Traced(lines, m, opt, c, st, bs, ks, ms) && IsTaken(lines, m, c, {BlockLine})
    requires BlockFrom(lines, m, b, opt, c) && b.boardID == st.boardID
    ensures Traced(lines, m + 1, opt, c, st.(firstLine := false, blocks := st.blocks + [b]), bs, ks + [m], ms)
  {
    PlacesStay(lines, m, c, BOARD_LINES, bs);
    PlacesPush(lines, m, c, {BlockLine}, ks);
    PlacesStay(lines, m, c, {MemberLine}, ms);
    LastBoardLater(st.boards, bs, m, st.boardID);
    HomedBlock(st, bs, ks, st.(firstLine := false, blocks := st.blocks + [b]), m, b);
  }

  lemma MemberRead(lines: seq<string>, m: nat, opt: ImportOptions, c: Codecs, st: Reading, member: M.Member,
                   bs: seq<nat>, ks: seq<nat>, ms: seq<nat>)
    requires m < |lines| && Traced(lines, m, opt, c, st, bs, ks, ms) && IsTaken(lines, m, c, {MemberLine})
    requires c.member.decode(DataAt(lines, m, c)) == Some(member)
    ensures Traced(lines, m + 1, opt, c, st.(firstLine := false, members := st.members + [member]), bs, ks, ms + [m])
  {
    PlacesStay(lines, m, c, BOARD_LINES, bs);
    PlacesStay(lines, m, c, {BlockLine}, ks);
    PlacesPush(lines, m, c, {MemberLine}, ms);
    LastBoardLater(st.boards, bs, m, st.boardID);
  }

  lemma TracedNext(lines: seq<string>, m: nat, opt: ImportOptions, c: Codecs, st: Reading)
    requires m < |lines| && TracedTo(lines, m, opt, c, st) && IsRead(lines, m) && IsReadable(lines, m, c)
    ensures var r := ReadData(st.(firstLine := false), KindAt(lines, m, c), DataAt(lines, m, c), opt, c);
            r.Read? && !r.state.firstLine && TracedTo(lines, m + 1, opt, c, r.state)
  {
    var data := DataAt(lines, m, c);
    var next := ReadData(st.(firstLine := false), KindAt(lines, m, c), data, opt, c).state;
    var bs, ks, ms :| Traced(lines, m, opt, c, st, bs, ks, ms);
    match KindAt(lines, m, c) {
      case BoardLine =>
        BoardRead(lines, m, opt, c, st, ImportedBoard(c.board.decode(data).value, opt), bs, ks, ms);
        assert Traced(lines, m + 1, opt, c, next, bs + [m], ks, ms);
      case BoardBlockLine =>
        BoardRead(lines, m, opt, c, st, BoardOfBlock(c.block.decode(data).value, opt), bs, ks, ms);
        assert Traced(lines, m + 1, opt, c, next, bs + [m], ks, ms);
      case BlockLine =>
        BlockRead(lines, m, opt, c, st, ImportedBlock(c.block.decode(data).value, st.boardID, opt), bs, ks, ms);
        assert Traced(lines, m + 1, opt, c, next, bs, ks + [m], ms);
      case MemberLine =>
        MemberRead(lines, m, opt, c, st, c.member.decode(data).value, bs, ks, ms);
        assert Traced(lines, m + 1, opt, c, next, bs, ks, ms + [m]);
      case OtherLine(_) =>
    }
  }

  /** What reading `n` lines comes to. */
  ghost predicate ReadAsTold(lines: seq<string>, n: nat, opt: ImportOptions, c: Codecs, r: ReadResult)
    requires n <= |lines|
  {
    && (r.Read? <==> AllReadable(lines, n, c))
    && (r.Read? ==> (r.state.firstLine <==> NoneRead(lines, n)) && TracedTo(lines, n, opt, c, r.state))
  }

  lemma ToldNext(lines: seq<string>, m: nat, opt: ImportOptions, c: Codecs, r: ReadResult, next: ReadResult)
    requires m < |lines| && ReadAsTold(lines, m, opt, c, r)
    requires next == match r case Unreadable(n, e) => Unreadable(n, e) case Read(st) => ReadLine(st, lines[m], opt, c)
    ensures ReadAsTold(lines, m + 1, opt, c, next)
  {
    if r.Read? {
      ReadOne(lines, m, opt, c, r.state);
      assert AllReadable(lines, m + 1, c) <==> IsRead(lines, m) ==> IsReadable(lines, m, c);
      assert NoneRead(lines, m + 1) <==> NoneRead(lines, m) && !IsRead(lines, m);
      if !IsRead(lines, m) {
        TracedSkip(lines, m, opt, c, r.state);
      } else if IsReadable(lines, m, c) {
        TracedNext(lines, m, opt, c, r.state);
      }
    }
  }

  /** Reading succeeds exactly if every line that is read is readable; and then everything comes from its
      line. */
  lemma {:induction false} ReadsTo(lines: seq<string>, n: nat, opt: ImportOptions, c: Codecs)
    requires n <= |lines|
    ensures ReadAsTold(lines, n, opt, c, ReadLines(START, lines[..n], opt, c))
  {
    if n == 0 {
      assert Traced(lines, 0, opt, c, START, [], [], []);
    } else {
      ReadsTo(lines, n - 1, opt, c);
      assert lines[..n] == lines[..n - 1] + [lines[n - 1]];
      ReadPush(START, lines[..n - 1], lines[n - 1], opt, c);
      ToldNext(lines, n - 1, opt, c, ReadLines(START, lines[..n - 1], opt, c), ReadLines(START, lines[..n], opt, c));
    }
  }

  method ReadArchive(text: string, opt: ImportOptions, c: Codecs) returns (r: ReadResult)
    ensures r == ReadLines(START, ScanLines(text), opt, c)
    ensures r.Read? <==> AllReadable(ScanLines(text), |ScanLines(text)|, c)
    ensures r.Read? ==> FromLines(ScanLines(text), opt, c, r.state)
  {
    var lines := ScanLines(text);
    r := ReadAll(lines, opt, c);
    ReadsTo(lines, |lines|, opt, c);
    assert lines[..|lines|] == lines;
  }

  /** The scan loop of the import. */
  method ReadAll(lines: seq<string>, opt: ImportOptions, c: Codecs) returns (r: ReadResult)
    ensures r == ReadLines(START, lines, opt, c)
  {
    var boards, blocks, members, boardID, firstLine := [], [], [], "", true;
    var lineNum := 1;
    for i := 0 to |lines|
      invariant ReadLines(START, lines, opt, c)
             == ReadLines(Reading(boards, blocks, members, boardID, firstLine), lines[i..], opt, c)
      invariant lineNum == 1
    {
      assert lines[i..][0] == lines[i] && lines[i..][1..] == lines[i + 1..];
      var line := TrimSpace(lines[i]);
      if line != "" {
        var skip := false;
        if firstLine {
          if LEGACY_FILE_BEGIN <= line {
            skip := true;
          }
        }
        if !skip {
          var archiveLine := c.line.decode(line);
          if archiveLine.None? {
            return Unreadable(lineNum, BadLine);
          }
          var kind, data := archiveLine.value.kind, archiveLine.value.data;
          if firstLine && kind == BlockLine {
            kind := BoardBlockLine;
          }
          match kind {
            case BoardLine =>
              var board := c.board.decode(data);
              if board.None? {
                return Unreadable(lineNum, BadBoard);
              }
              boards := boards + [ImportedBoard(board.value, opt)];
              boardID := board.value.id;
            case BoardBlockLine =>
              var block := c.block.decode(data);
              if block.None? {
                return Unreadable(lineNum, BadBoardBlock);
              }
              if block.value.kind != TypeBoard {
                return Unreadable(lineNum, NotABoard);
              }
              boards := boards + [BoardOfBlock(block.value, opt)];
              boardID := block.value.id;
            case BlockLine =>
              var block := c.block.decode(data);
              if block.None? {
                return Unreadable(lineNum, BadBlock);
              }
              blocks := blocks + [ImportedBlock(block.value, boardID, opt)];
            case MemberLine =>
              var member := c.member.decode(data);
              if member.None? {
                return Unreadable(lineNum, BadMember);
              }
              members := members + [member.value];
            case OtherLine(name) =>
              return Unreadable(lineNum, UnsupportedType(name));
          }
          firstLine := false;
        }
      }
    }
    r := Read(Reading(boards, blocks, members, boardID, firstLine));
  }

  /** Every failure is reported for line 1.  The line that failed is the one after some that read well, so
      the report is right exactly if that is the first. */
  lemma {:induction false} FailsAt(st: Reading, lines: seq<string>, opt: ImportOptions, c: Codecs)
    returns (k: nat, at: Reading)
    requires ReadLines(st, lines, opt, c).Unreadable?
    ensures k < |lines|
    ensures ReadLines(st, lines[..k], opt, c) == Read(at)
    ensures ReadLine(at, lines[k], opt, c) == ReadLines(st, lines, opt, c)
    ensures ReadLines(st, lines, opt, c).line == 1
    decreases |lines|
  {
    match ReadLine(st, lines[0], opt, c)
    case Unreadable(_, _) =>
      k, at := 0, st;
    case Read(next) =>
      k, at := FailsAt(next, lines[1..], opt, c);
      k := k + 1;
      assert lines[..k][1..] == lines[1..][..k - 1];
  }

  function KnownMembers(ms: seq<M.Member>, known: set<string>): seq<M.Member> {
    if ms == [] then []
    else (if ms[0].userID in known then [ms[0]] else []) + KnownMembers(ms[1..], known)
  }

  /** Takes the members without an account out of the list, from its end to its start. */
  method RemoveUnknownMembers(members: seq<M.Member>, known: set<string>) returns (boardMembers: seq<M.Member>)
    ensures boardMembers == KnownMembers(members, known)
  {
    boardMembers := members;
    var i := |boardMembers| - 1;
    while i >= 0
      invariant -1 <= i < |members|
      invariant i < |boardMembers|
      invariant boardMembers == members[..i + 1] + KnownMembers(members[i + 1..], known)
    {
      assert members[i..][1..] == members[i + 1..] && members[..i + 1] == members[..i] + [members[i]];
      if boardMembers[i].userID !in known {
        boardMembers := boardMembers[..i] + boardMembers[i + 1..];
      }
      i := i - 1;
    }
  }

  // ----- reading what was written

  lemma TrimObject(s: string)
    requires IsObjectText(s)
    ensures TrimSpace(s) == s != ""
  {
  }

  function ImportedBlocks(bs: seq<BlockData>, boardID: string, opt: ImportOptions): (r: seq<BlockData>)
    ensures |r| == |bs|
  {
    seq(|bs|, i requires 0 <= i < |bs| => ImportedBlock(bs[i], boardID, opt))
  }

  lemma ReadStep(st: Reading, next: Reading, l: string, ls: seq<string>, opt: ImportOptions, c: Codecs)
    requires ReadLine(st, l, opt, c) == Read(next)
    ensures ReadLines(st, [l] + ls, opt, c) == ReadLines(next, ls, opt, c)
  {
    assert ([l] + ls)[1..] == ls;
  }

  lemma {:induction false} ReadBlocks(st: Reading, bs: seq<BlockData>, rest: seq<string>, opt: ImportOptions, c: Codecs)
    requires Faithful(c) && !st.firstLine
    ensures ReadLines(st, BlockTexts(bs, c) + rest, opt, c)
         == ReadLines(st.(blocks := st.blocks + ImportedBlocks(bs, st.boardID, opt)), rest, opt, c)
    decreases |bs|
  {
    var ls, ks := BlockTexts(bs, c), ImportedBlocks(bs, st.boardID, opt);
    if bs == [] {
      assert ls + rest == rest && st.blocks + ks == st.blocks;
    } else {
      var next := st.(blocks := st.blocks + [ks[0]]);
      var tail := BlockTexts(bs[1..], c) + rest;
      assert ls + rest == [ls[0]] + tail;
      assert ks == [ks[0]] + ImportedBlocks(bs[1..], st.boardID, opt);
      JoinJoin(st.blocks, [ks[0]], ImportedBlocks(bs[1..], st.boardID, opt));
      TrimObject(c.line.encode(ArchiveLine(BlockLine, c.block.encode(bs[0]))));
      ReadStep(st, next, ls[0], tail, opt, c);
      ReadBlocks(next, bs[1..], rest, opt, c);
    }
  }

  lemma {:induction false} ReadMembers(st: Reading, ms: seq<M.Member>, opt: ImportOptions, c: Codecs)
    requires Faithful(c) && !st.firstLine
    ensures ReadLines(st, MemberTexts(ms, c), opt, c) == Read(st.(members := st.members + ms))
    decreases |ms|
  {
    var ls := MemberTexts(ms, c);
    if ms == [] {
      assert st.members + ms == st.members;
    } else {
      var next := st.(members := st.members + [ms[0]]);
      assert ls == [ls[0]] + MemberTexts(ms[1..], c);
      assert st.members + ms == next.members + ms[1..];
      TrimObject(c.line.encode(ArchiveLine(MemberLine, c.member.encode(ms[0]))));
      ReadStep(st, next, ls[0], MemberTexts(ms[1..], c), opt, c);
      ReadMembers(next, ms[1..], opt, c);
    }
  }

  lemma ReadBody(board: Board, blocks: seq<BlockData>, members: seq<M.Member>, opt: ImportOptions, c: Codecs)
    requires Faithful(c)
    ensures ReadLines(Reading([ImportedBoard(board, opt)], [], [], board.id, false),
                      BlockTexts(blocks, c) + MemberTexts(members, c), opt, c)
         == Read(Reading([ImportedBoard(board, opt)], ImportedBlocks(blocks, board.id, opt), members, board.id, false))
  {
    var st := Reading([ImportedBoard(board, opt)], [], [], board.id, false);
    ReadBlocks(st, blocks, MemberTexts(members, c), opt, c);
    var read := st.(blocks := ImportedBlocks(blocks, board.id, opt));
    assert [] + ImportedBlocks(blocks, board.id, opt) == ImportedBlocks(blocks, board.id, opt);
    ReadMembers(read, members, opt, c);
    assert [] + members == members;
  }

  lemma ScanExport(board: Board, blocks: seq<BlockData>, members: seq<M.Member>, c: Codecs)
    requires Faithful(c)
    ensures ScanLines(Unlines(ExportLines(board, blocks, members, c)))
         == [BoardText(board, c)] + (BlockTexts(blocks, c) + MemberTexts(members, c))
  {
    var bs, ms := BlockTexts(blocks, c), MemberTexts(members, c);
    forall l | l in [BoardText(board, c)] + bs + ms ensures IsObjectText(l) {
      assert l == BoardText(board, c) || l in bs || l in ms;
    }
    ScanObjects([BoardText(board, c)] + bs + ms);
    JoinJoin([BoardText(board, c)], bs, ms);
  }

  /** Reading an exported board gives the board, every block once and in order under that board,
      and every member in order. */
  lemma ReadBack(board: Board, blocks: seq<BlockData>, members: seq<M.Member>, opt: ImportOptions, c: Codecs)
    requires Faithful(c)
    ensures ReadLines(START, ScanLines(Unlines(ExportLines(board, blocks, members, c))), opt, c)
         == Read(Reading([ImportedBoard(board, opt)], ImportedBlocks(blocks, board.id, opt), members, board.id, false))
  {
    ScanExport(board, blocks, members, c);
    var st := Reading([ImportedBoard(board, opt)], [], [], board.id, false);
    TrimObject(BoardText(board, c));
    assert [] + [ImportedBoard(board, opt)] == [ImportedBoard(board, opt)];
    ReadStep(START, st, BoardText(board, c), BlockTexts(blocks, c) + MemberTexts(members, c), opt, c);
    ReadBody(board, blocks, members, opt, c);
  }

  lemma ScanOld(tag: string, blocks: seq<BlockData>, c: Codecs)
    requires Faithful(c) && IsObjectText(tag)
    ensures ScanLines(Unlines([tag] + BlockTexts(blocks, c))) == [tag] + BlockTexts(blocks, c)
  {
    var lines := [tag] + BlockTexts(blocks, c);
    forall l | l in lines ensures IsObjectText(l) {
      var i :| 0 <= i < |lines| && lines[i] == l;
    }
    ScanObjects(lines);
  }

  lemma OldReads(tag: string, root: BlockData, blocks: seq<BlockData>, opt: ImportOptions, c: Codecs)
    requires Faithful(c) && root.kind == TypeBoard && IsObjectText(tag) && LEGACY_FILE_BEGIN <= tag
    ensures ReadLines(START, [tag] + BlockTexts([root] + blocks, c), opt, c)
         == Read(Reading([BoardOfBlock(root, opt)], ImportedBlocks(blocks, root.id, opt), [], root.id, false))
  {
    var first := BlockTexts([root], c);
    var rest := BlockTexts(blocks, c);
    assert [tag] + BlockTexts([root] + blocks, c) == [tag] + (first + rest) && first + rest == [first[0]] + rest;
    TrimObject(tag);
    ReadStep(START, START, tag, first + rest, opt, c);
    TrimObject(first[0]);
    var st := Reading([BoardOfBlock(root, opt)], [], [], root.id, false);
    assert [] + [BoardOfBlock(root, opt)] == [BoardOfBlock(root, opt)];
    ReadStep(START, st, first[0], rest, opt, c);
    assert rest + [] == rest;
    ReadBlocks(st, blocks, [], opt, c);
    assert [] + ImportedBlocks(blocks, root.id, opt) == ImportedBlocks(blocks, root.id, opt);
  }

  /** An old archive holds its board as the first block, behind a tag: it reads as that board, under the
      importing team, with the later blocks in order under its ID. */
  lemma OldArchive(tag: string, root: BlockData, blocks: seq<BlockData>, opt: ImportOptions, c: Codecs)
    requires Faithful(c) && root.kind == TypeBoard && IsObjectText(tag) && LEGACY_FILE_BEGIN <= tag
    ensures var r := ReadLines(START, ScanLines(Unlines([tag] + BlockTexts([root] + blocks, c))), opt, c);
            r.Read? && IsOldArchive(r.state, root, blocks, opt)
  {
    ScanOld(tag, [root] + blocks, c);
    OldReads(tag, root, blocks, opt, c);
  }

  predicate IsOldArchive(st: Reading, root: BlockData, blocks: seq<BlockData>, opt: ImportOptions) {
    && |st.boards| == 1 && st.boards[0].id == root.id && st.boards[0].teamID == opt.teamID
    && Stamped(root.meta, st.boards[0].meta, opt) && st.members == []
    && |st.blocks| == |blocks|
    && forall i :: 0 <= i < |blocks| ==>
         && st.blocks[i] == blocks[i].(boardID := root.id, meta := st.blocks[i].meta)
         && Stamped(blocks[i].meta, st.blocks[i].meta, opt)
  }

  // ----- import

  /** The memberships an import adds to a new board: the importing user as admin, then the members. */
  function MemberOps(boardID: string, opt: ImportOptions, ms: seq<M.Member>): (r: seq<M.Op>)
    ensures |r| == |ms| + 1
    ensures forall op :: op in r ==> op.Add? && op.member.boardID == boardID
  {
    [M.Add(M.Member(boardID, opt.modifiedBy, M.Roles(true, false, false, false), false))]
    + seq(|ms|, i requires 0 <= i < |ms| => M.Add(ms[i].(boardID := boardID)))
  }

  function AllMemberOps(boardIDs: seq<string>, opt: ImportOptions, ms: seq<M.Member>): seq<M.Op> {
    if boardIDs == [] then [] else MemberOps(boardIDs[0], opt, ms) + AllMemberOps(boardIDs[1..], opt, ms)
  }

  lemma RunPush(s: M.Rows, ops: seq<M.Op>, op: M.Op)
    ensures M.Run(s, ops + [op]) == M.Apply(M.Run(s, ops), op)
  {
    M.RunAppend(s, ops, [op]);
    assert M.Run(M.Run(s, ops), [op]) == M.Run(M.Apply(M.Run(s, ops), op), [op][1..]);
  }

  method AddMembers(store: M.MemberStore, boardID: string, opt: ImportOptions, boardMembers: seq<M.Member>)
    modifies store
    ensures store.rows == M.Run(old(store.rows), MemberOps(boardID, opt, boardMembers))
  {
    ghost var rows, ops := store.rows, MemberOps(boardID, opt, boardMembers);
    var adminMember := M.Member(boardID, opt.modifiedBy, M.Roles(true, false, false, false), false);
    var _ := store.AddMemberToBoard(adminMember, false);
    assert ops[..1] == [ops[0]] && M.Run(rows, [ops[0]]) == M.Run(M.Apply(rows, ops[0]), [ops[0]][1..]);
    for i := 0 to |boardMembers|
      invariant store.rows == M.Run(rows, ops[..i + 1])
    {
      assert ops[..i + 2] == ops[..i + 1] + [ops[i + 1]];
      RunPush(rows, ops[..i + 1], ops[i + 1]);
      var _ := store.AddMemberToBoard(boardMembers[i].(boardID := boardID), false);
    }
    assert ops[..|boardMembers| + 1] == ops;
  }

  /** The member list names this user here for the first time. */
  predicate FirstListed(ms: seq<M.Member>, i: int) {
    0 <= i < |ms| && forall j :: 0 <= j < i ==> ms[j].userID != ms[i].userID
  }

  /** After the import of a new board the importing user is its admin, and every other listed member
      is a member with the roles it is first listed with. */
  lemma ImportedMembers(rows: M.Rows, boardID: string, opt: ImportOptions, ms: seq<M.Member>)
    requires boardID in rows.boards && forall u :: (boardID, u) !in rows.explicit
    ensures var t := M.Run(rows, MemberOps(boardID, opt, ms));
            && M.IsAdmin(t, boardID, opt.modifiedBy)
            && forall i :: FirstListed(ms, i) && ms[i].userID != opt.modifiedBy ==>
                 (boardID, ms[i].userID) in t.explicit && t.explicit[(boardID, ms[i].userID)] == ms[i].roles
  {
    var ops := MemberOps(boardID, opt, ms);
    var t := M.Run(rows, ops);
    M.FirstAddDecides(rows, ops, 0, (boardID, opt.modifiedBy));
    forall i | FirstListed(ms, i) && ms[i].userID != opt.modifiedBy
      ensures (boardID, ms[i].userID) in t.explicit
      ensures t.explicit[(boardID, ms[i].userID)] == ms[i].roles
    {
      forall j | 0 <= j < i + 1 ensures ops[j].member.userID != ms[i].userID {
        assert j > 0 ==> ops[j] == M.Add(ms[j - 1].(boardID := boardID));
      }
      M.FirstAddDecides(rows, ops, i + 1, (boardID, ms[i].userID));
    }
  }

  /** The objects a parse produces. */
  method Allocate(bs: seq<BlockData>) returns (blocks: seq<Block>)
    ensures Contents(blocks) == bs && NoRepeats(blocks) && fresh(blocks)
  {
    blocks := [];
    for i := 0 to |bs|
      invariant |blocks| == i && fresh(blocks) && NoRepeats(blocks)
      invariant forall k :: 0 <= k < i ==> blocks[k].Data() == bs[k]
    {
      var block := new Block(bs[i]);
      blocks := blocks + [block];
    }
  }

  /** Adds the imported members to every new board. */
  method AddMembersToAll(store: M.MemberStore, boards: seq<Board>, opt: ImportOptions, boardMembers: seq<M.Member>)
    modifies store
    ensures store.rows == M.Run(old(store.rows), AllMemberOps(BoardIDs(boards), opt, boardMembers))
  {
    ghost var rows, all := store.rows, AllMemberOps(BoardIDs(boards), opt, boardMembers);
    for i := 0 to |boards|
      invariant M.Run(rows, all) == M.Run(store.rows, AllMemberOps(BoardIDs(boards)[i..], opt, boardMembers))
    {
      ghost var ids := BoardIDs(boards)[i..];
      assert ids[0] == boards[i].id && ids[1..] == BoardIDs(boards)[i + 1..];
      M.RunAppend(store.rows, MemberOps(ids[0], opt, boardMembers), AllMemberOps(ids[1..], opt, boardMembers));
      AddMembers(store, boards[i].id, opt, boardMembers);
    }
  }

  /** The store after an import: the new boards exist and have their members. */
  ghost function RowsAfter(rows: M.Rows, newBoards: seq<Board>, opt: ImportOptions, members: seq<M.Member>): M.Rows {
    M.Run(rows.(boards := rows.boards + set x | x in BoardIDs(newBoards)),
      AllMemberOps(BoardIDs(newBoards), opt, members))
  }

  /** Gives new IDs to everything that was read, stores the boards, and adds the members. */
  method CreateImported(st: Reading, opt: ImportOptions, boardMembers: seq<M.Member>, ids: IdSupply,
                        store: M.MemberStore)
    returns (r: Outcome, newBoards: seq<Board>, newBlocks: seq<Block>, ghost ren: map<string, string>,
             ghost now: set<string>)
    requires ids.Valid()
    modifies ids, store
    ensures r.Valid? <==> st.boards != [] && st.blocks != [] && AllHoused(st.blocks, BoardIDs(st.boards))
    ensures r.Valid? ==> Regenerated(st.boards, st.blocks, newBoards, Contents(newBlocks), ren, old(ids.used), now)
    ensures r.Valid? ==> store.rows == RowsAfter(old(store.rows), newBoards, opt, boardMembers)
    ensures r.Failed? ==> unchanged(store) && unchanged(ids)
  {
    var blocks := Allocate(st.blocks);
    r, newBoards, newBlocks, ren, now := GenerateBoardsAndBlocksIDs(st.boards, blocks, ids);
    if r.Valid? {
      ghost var news := Contents(newBlocks);
      store.rows := store.rows.(boards := store.rows.boards + set x | x in BoardIDs(newBoards));
      AddMembersToAll(store, newBoards, opt, boardMembers);
      assert Contents(newBlocks) == news;
    }
  }

  /** What an import of a text comes to: what is read, whether it is accepted, the new boards and blocks,
      and the store's memberships before and after. */
  ghost predicate Imported(text: string, opt: ImportOptions, known: set<string>, c: Codecs, read: ReadResult,
                           r: Outcome, newBoards: seq<Board>, news: seq<BlockData>, ren: map<string, string>,
                           used: set<string>, now: set<string>, before: M.Rows, after: M.Rows)
  {
    && read == ReadLines(START, ScanLines(text), opt, c)
    && (r.Valid? <==> read.Read? && read.state.boards != [] && read.state.blocks != []
                      && AllHoused(read.state.blocks, BoardIDs(read.state.boards)))
    && (r.Valid? ==> Regenerated(read.state.boards, read.state.blocks, newBoards, news, ren, used, now))
    && after == if r.Valid? then RowsAfter(before, newBoards, opt, KnownMembers(read.state.members, known)) else before
  }

  /** Changed by the importing user, who is nobody if single, and now. */
  predicate ByImporter(m: Meta, opt: ImportOptions) {
    m.modifiedBy == (if opt.modifiedBy == "single-user" then "" else opt.modifiedBy) && m.updateAt == opt.now
  }

  /** The new boards are those read, in order, and the new blocks are among those read, in all that is not an
      ID; every board is under the importing team, and all is stamped. */
  ghost predicate StoredFrom(st: Reading, newBoards: seq<Board>, news: seq<BlockData>, opt: ImportOptions) {
    && |newBoards| == |st.boards|
    && (forall j :: 0 <= j < |newBoards| ==>
          && newBoards[j].teamID == opt.teamID && ByImporter(newBoards[j].meta, opt)
          && newBoards[j].meta == st.boards[j].meta)
    && (forall k :: 0 <= k < |news| ==>
          ByImporter(news[k].meta, opt) && exists j :: 0 <= j < |st.blocks| && SameBody(news[k], st.blocks[j]))
  }

  predicate SameBody(a: BlockData, b: BlockData) {
    a.kind == b.kind && a.meta == b.meta
  }

  lemma NewHomeBody(b: BlockData, boardIDs: seq<string>, newIDs: seq<string>)
    requires |boardIDs| == |newIDs|
    ensures SameBody(NewHome(b, boardIDs, newIDs), b)
    decreases |boardIDs|
  {
  }

  /** All that was read is stamped, and every board is under the importing team. */
  ghost predicate AllStamped(st: Reading, opt: ImportOptions) {
    && (forall j :: 0 <= j < |st.boards| ==> st.boards[j].teamID == opt.teamID && ByImporter(st.boards[j].meta, opt))
    && (forall k :: 0 <= k < |st.blocks| ==> ByImporter(st.blocks[k].meta, opt))
  }

  lemma LinesStamped(lines: seq<string>, opt: ImportOptions, c: Codecs, st: Reading)
    requires FromLines(lines, opt, c, st)
    ensures AllStamped(st, opt)
  {
    var bs, ks, ms :| Traced(lines, |lines|, opt, c, st, bs, ks, ms);
    forall j | 0 <= j < |st.boards| ensures st.boards[j].teamID == opt.teamID && ByImporter(st.boards[j].meta, opt) {
      assert BoardFrom(lines, bs[j], st.boards[j], opt, c);
    }
    forall k | 0 <= k < |st.blocks| ensures ByImporter(st.blocks[k].meta, opt) {
      assert BlockFrom(lines, ks[k], st.blocks[k], opt, c);
    }
  }

  lemma RegeneratedFrom(opt: ImportOptions, st: Reading, newBoards: seq<Board>, news: seq<BlockData>,
                        ren: map<string, string>, used: set<string>, now: set<string>)
    requires AllStamped(st, opt) && Regenerated(st.boards, st.blocks, newBoards, news, ren, used, now)
    ensures StoredFrom(st, newBoards, news, opt)
  {
    var olds, homes := BoardIDs(st.boards), Homes(st.blocks);
    var moved := NewHomes(st.blocks, olds, BoardIDs(newBoards));
    forall k | 0 <= k < |news|
      ensures ByImporter(news[k].meta, opt)
      ensures exists j :: 0 <= j < |st.blocks| && SameBody(news[k], st.blocks[j])
    {
      var j := RegroupPlace(moved, homes, olds, k);
      NewHomeBody(st.blocks[j], olds, BoardIDs(newBoards));
      assert SameBody(news[k], st.blocks[j]);
    }
  }

  /** Imports one board archive: reads it, keeps the members with an account, gives new IDs to
      everything, stores the boards, and adds the members. */
  method ImportBoardJSONL(text: string, opt: ImportOptions, known: set<string>, c: Codecs, ids: IdSupply,
                          store: M.MemberStore)
    returns (read: ReadResult, r: Outcome, newBoards: seq<Board>, newBlocks: seq<Block>,
             ghost ren: map<string, string>, ghost now: set<string>)
    requires ids.Valid()
    modifies ids, store
    ensures Imported(text, opt, known, c, read, r, newBoards, Contents(newBlocks), ren, old(ids.used), now,
              old(store.rows), store.rows)
    ensures r.Failed? ==> unchanged(store) && unchanged(ids)
    ensures read.Read? <==> AllReadable(ScanLines(text), |ScanLines(text)|, c)
    ensures read.Read? ==> FromLines(ScanLines(text), opt, c, read.state)
    ensures r.Valid? ==> StoredFrom(read.state, newBoards, Contents(newBlocks), opt)
  {
    newBoards, newBlocks, ren, now, r := [], [], map[], {}, Outcome.Failed(NoBoards);
    read := ReadArchive(text, opt, c);
    if read.Read? {
      var boardMembers := RemoveUnknownMembers(read.state.members, known);
      ghost var used := ids.used;
      r, newBoards, newBlocks, ren, now := CreateImported(read.state, opt, boardMembers, ids, store);
      if r.Valid? {
        LinesStamped(ScanLines(text), opt, c, read.state);
        RegeneratedFrom(opt, read.state, newBoards, Contents(newBlocks), ren, used, now);
      }
    }
  }

  // ----- export, then import

  lemma {:induction false} GroupAll<T>(xs: seq<T>, homes: seq<string>, id: string)
    requires |xs| == |homes| && forall i :: 0 <= i < |homes| ==> homes[i] == id
    ensures Group(xs, homes, id) == xs
  {
    if xs == [] {
    } else {
      GroupAll(xs[1..], homes[1..], id);
    }
  }

  /** Moving blocks to a board with a fresh ID changes what they mention by that ID only. */
  lemma MovedMentions(bs: seq<BlockData>, moved: seq<BlockData>, newID: string, used: set<string>)
    requires |moved| == |bs| && forall i :: 0 <= i < |bs| ==> moved[i] == bs[i].(boardID := newID)
    requires Mentioned(bs) <= used
    ensures Mentioned(moved) <= used + {newID}
    ensures BlockIDs(moved) == BlockIDs(bs) <= used
  {
    forall i | 0 <= i < |bs|
      ensures Mentions(moved[i]) <= used + {newID}
      ensures bs[i].id in BlockIDs(moved) && bs[i].id in used
    {
      MentionedAt(bs, i);
      MentionedAt(moved, i);
      assert bs[i].id in Mentions(bs[i]);
    }
    forall i | 0 <= i < |bs| ensures moved[i].id in BlockIDs(bs) { MentionedAt(bs, i); }
  }

  /** The imported blocks, as they stand when their IDs are re-issued. */
  ghost predicate OneBoardImport(board: Board, blocks: seq<BlockData>, opt: ImportOptions, newBoards: seq<Board>,
                                 news: seq<BlockData>, ren: map<string, string>, used: set<string>, now: set<string>) {
    && Distinct(blocks)
    && Mentioned(ImportedBlocks(blocks, board.id, opt)) <= used
    && Regenerated([ImportedBoard(board, opt)], ImportedBlocks(blocks, board.id, opt), newBoards, news, ren, used, now)
  }

  /** The archive of a board with blocks is accepted; it makes one board, and the members with an
      account are added to it in order. */
  lemma ExportImports(board: Board, blocks: seq<BlockData>, members: seq<M.Member>, opt: ImportOptions,
                      known: set<string>, c: Codecs, read: ReadResult, r: Outcome, newBoards: seq<Board>,
                      news: seq<BlockData>, ren: map<string, string>, used: set<string>, now: set<string>,
                      before: M.Rows, after: M.Rows)
    requires Faithful(c) && Distinct(blocks) && Mentioned(ImportedBlocks(blocks, board.id, opt)) <= used
    requires Imported(Unlines(ExportLines(board, blocks, members, c)), opt, known, c, read, r, newBoards, news, ren,
               used, now, before, after)
    ensures r.Valid? <==> blocks != []
    ensures blocks != [] ==> OneBoardImport(board, blocks, opt, newBoards, news, ren, used, now)
    ensures blocks != [] ==> after == RowsAfter(before, newBoards, opt, KnownMembers(members, known))
    ensures blocks == [] ==> after == before
  {
    ReadBack(board, blocks, members, opt, c);
    var bs, boards := ImportedBlocks(blocks, board.id, opt), [ImportedBoard(board, opt)];
    assert BoardIDs(boards) == [board.id];
    assert AllHoused(bs, BoardIDs(boards)) by {
      forall b | b in bs ensures b.boardID in BoardIDs(boards) {
        assert board.id in BoardIDs(boards);
      }
    }
  }

  /** Every stored membership is for a board whose ID is in use. */
  ghost predicate BoardsUsed(rows: M.Rows, used: set<string>) {
    forall k :: k in rows.explicit ==> k.0 in used
  }

  lemma {:induction false} RunBoardsUsed(rows: M.Rows, ops: seq<M.Op>, used: set<string>)
    requires BoardsUsed(rows, used) && forall op :: op in ops ==> op.Add? && op.member.boardID in used
    ensures BoardsUsed(M.Run(rows, ops), used)
    decreases |ops|
  {
    if ops == [] {
    } else {
      assert ops[0] in ops;
      RunBoardsUsed(M.Apply(rows, ops[0]), ops[1..], used);
    }
  }

  lemma ReissuedMoved(board: Board, blocks: seq<BlockData>, opt: ImportOptions, newBoards: seq<Board>,
                      news: seq<BlockData>, ren: map<string, string>, used: set<string>,
                      now: set<string>) returns (moved: seq<BlockData>)
    requires OneBoardImport(board, blocks, opt, newBoards, news, ren, used, now)
    ensures |newBoards| == 1 && newBoards[0] == ImportedBoard(board, opt).(id := newBoards[0].id) &&
              newBoards[0].id !in used
    ensures now == used + {newBoards[0].id}
    ensures |moved| == |blocks|
    ensures forall i :: 0 <= i < |blocks| ==> moved[i] == ImportedBlock(blocks[i], newBoards[0].id, opt)
    ensures Reissued(moved, news, ren, now) && Distinct(moved) && Mentioned(moved) <= now &&
              BlockIDs(moved) == BlockIDs(blocks) <= used
  {
    var bs := ImportedBlocks(blocks, board.id, opt);
    var newID := BoardIDs(newBoards)[0];
    assert BoardIDs([ImportedBoard(board, opt)]) == [board.id] && BoardIDs(newBoards) == [newID];
    var homes := NewHomes(bs, [board.id], [newID]);
    GroupAll(homes, Homes(bs), board.id);
    assert Regroup(homes, Homes(bs), [board.id][1..]) == [];
    moved := Regroup(NewHomes(bs, [board.id], [newID]), Homes(bs), [board.id]);
    MovedMentions(bs, moved, newID, used);
    ImportedIDs(blocks, board.id, opt);
  }

  /** After the import of an exported board (accepted by `ExportImports`) its members are the importing
      user, as admin, and every listed member with an account, with the roles of the first listing. */
  lemma ExportThenImportMembers(board: Board, blocks: seq<BlockData>, ms: seq<M.Member>, opt: ImportOptions,
                                newBoards: seq<Board>, news: seq<BlockData>, ren: map<string, string>,
                                used: set<string>, now: set<string>, before: M.Rows)
    requires OneBoardImport(board, blocks, opt, newBoards, news, ren, used, now) && BoardsUsed(before, used)
    ensures |newBoards| == 1
    ensures var after, id := RowsAfter(before, newBoards, opt, ms), newBoards[0].id;
            && BoardsUsed(after, now) && M.IsAdmin(after, id, opt.modifiedBy)
            && (forall i :: FirstListed(ms, i) && ms[i].userID != opt.modifiedBy ==>
                  (id, ms[i].userID) in after.explicit && after.explicit[(id, ms[i].userID)] == ms[i].roles)
            && (forall k :: k in before.explicit ==> k in after.explicit && after.explicit[k] == before.explicit[k])
  {
    var _ := ReissuedMoved(board, blocks, opt, newBoards, news, ren, used, now);
    var id := newBoards[0].id;
    var ops := MemberOps(id, opt, ms);
    var rows := before.(boards := before.boards + set x | x in BoardIDs(newBoards));
    assert BoardIDs(newBoards) == [id] && [id][1..] == [];
    assert AllMemberOps([id], opt, ms) == ops + AllMemberOps([id][1..], opt, ms) == ops;
    assert RowsAfter(before, newBoards, opt, ms) == M.Run(rows, ops);
    assert id in BoardIDs(newBoards);
    ImportedMembers(rows, id, opt, ms);
    RunBoardsUsed(rows, ops, now);
    forall k | k in before.explicit {
      M.AddsKeepMembers(rows, ops, k);
    }
  }

  /** Importing an exported board (whose archive reads back by `ReadBack`) makes one board: the old
      one, stamped, under a fresh ID.  Every block comes back once and in order, stamped, under that
      ID, with a fresh ID of its own; a parent that is no block, such as the old board, stays. */
  lemma ExportThenImport(board: Board, blocks: seq<BlockData>, opt: ImportOptions, newBoards: seq<Board>,
                         news: seq<BlockData>, ren: map<string, string>, used: set<string>, now: set<string>, i: nat)
    requires OneBoardImport(board, blocks, opt, newBoards, news, ren, used, now) && i < |blocks|
    ensures |newBoards| == 1 && newBoards[0] == ImportedBoard(board, opt).(id := newBoards[0].id) &&
              newBoards[0].id !in used
    ensures |news| == |blocks|
    ensures news[i].boardID == newBoards[0].id && news[i].kind == blocks[i].kind &&
              news[i].meta == Stamp(blocks[i].meta, opt)
    ensures newBoards[0].teamID == opt.teamID && Stamped(board.meta, newBoards[0].meta, opt)
    ensures Stamped(blocks[i].meta, news[i].meta, opt)
    ensures news[i].id !in used
    ensures blocks[i].parentID !in BlockIDs(blocks) ==> news[i].parentID == blocks[i].parentID
  {
    var moved := ReissuedMoved(board, blocks, opt, newBoards, news, ren, used, now);
    assert news[i] == LinksRenamed(moved[i], news[i].id, ren);
    assert IdReissued(moved[i], news[i].id, ren, now);
    assert ren.Keys <= BlockIDs(moved);
  }

  /** Some block names the ID as its parent, in its content, or, unless its content is ill typed, as its
      default template. */
  ghost predicate NamedBy(blocks: seq<BlockData>, id: string) {
    exists k :: 0 <= k < |blocks| && NamesInside(blocks[k], id)
  }

  ghost function NamedIDs(blocks: seq<BlockData>): set<string> {
    set b | b in blocks && NamedBy(blocks, b.id) :: b.id
  }

  lemma NamedIff(blocks: seq<BlockData>, moved: seq<BlockData>, newID: string, opt: ImportOptions, id: string)
    requires |moved| == |blocks| && id != newID
    requires forall i :: 0 <= i < |blocks| ==> moved[i] == ImportedBlock(blocks[i], newID, opt)
    ensures id in AllRefs(moved) <==> NamedBy(blocks, id)
  {
    BlockIds.CountedIff(moved, id);
    forall k | 0 <= k < |blocks| ensures NamesInside(moved[k], id) <==> NamesInside(blocks[k], id) {
    }
  }

  lemma FollowsMoved(blocks: seq<BlockData>, moved: seq<BlockData>, news: seq<BlockData>, newID: string,
                     opt: ImportOptions, x: string, y: string)
    requires |moved| == |blocks| == |news| && newID !in BlockIDs(blocks)
    requires forall i :: 0 <= i < |blocks| ==> moved[i] == ImportedBlock(blocks[i], newID, opt)
    ensures Follows(moved, news, BlockIDs(moved), x, y) ==> Follows(blocks, news, BlockIDs(blocks), x, y)
    ensures Follows(moved, news, AllRefs(moved), x, y) ==> Follows(blocks, news, NamedIDs(blocks), x, y)
  {
    forall j | 0 <= j < |blocks| && blocks[j].id == x
      ensures moved[j].id == x && x in BlockIDs(moved) && (x in AllRefs(moved) <==> x in NamedIDs(blocks))
    {
      MentionedAt(blocks, j);
      MentionedAt(moved, j);
      NamedIff(blocks, moved, newID, opt, x);
      assert blocks[j] in blocks;
    }
    forall j | 0 <= j < |moved| && moved[j].id == x ensures blocks[j].id == x { }
  }

  lemma PlaceFollowsMoved(blocks: seq<BlockData>, moved: seq<BlockData>, news: seq<BlockData>, newID: string,
                          opt: ImportOptions, was: Entry, now: Entry)
    requires |moved| == |blocks| == |news| && newID !in BlockIDs(blocks)
    requires forall i :: 0 <= i < |blocks| ==> moved[i] == ImportedBlock(blocks[i], newID, opt)
    ensures PlaceFollows(moved, news, BlockIDs(moved), was, now) ==>
              PlaceFollows(blocks, news, BlockIDs(blocks), was, now)
    ensures PlaceFollows(moved, news, AllRefs(moved), was, now) ==>
              PlaceFollows(blocks, news, NamedIDs(blocks), was, now)
  {
    forall x, y {
      FollowsMoved(blocks, moved, news, newID, opt, x, y);
    }
  }

  lemma OrdersFollow(blocks: seq<BlockData>, moved: seq<BlockData>, news: seq<BlockData>, newID: string,
                     opt: ImportOptions, ren: map<string, string>, now: set<string>, i: nat)
    requires |moved| == |blocks| && newID !in BlockIDs(blocks) && i < |blocks| && Reissued(moved, news, ren, now)
    requires forall i :: 0 <= i < |blocks| ==> moved[i] == ImportedBlock(blocks[i], newID, opt)
    ensures OrderFollows(blocks, news, BlockIDs(blocks), blocks[i].contentOrder, news[i].contentOrder)
    ensures OrderFollows(blocks, news, NamedIDs(blocks), blocks[i].cardOrder, news[i].cardOrder)
  {
    EveryBlockFollows(moved, news, ren, now);
    assert BlockFollows(moved, news, i);
    var f, g := blocks[i].contentOrder, blocks[i].cardOrder;
    if f.Order? {
      forall k | 0 <= k < |f.entries| {
        PlaceFollowsMoved(blocks, moved, news, newID, opt, f.entries[k], news[i].contentOrder.entries[k]);
      }
    }
    if g.Order? {
      forall k | 0 <= k < |g.entries| {
        PlaceFollowsMoved(blocks, moved, news, newID, opt, g.entries[k], news[i].cardOrder.entries[k]);
      }
    }
  }

  /** The links between the blocks of an exported board survive the import; card orders and default
      templates for exactly the blocks that some parent, content or counted default template names. */
  lemma ExportThenImportLinks(board: Board, blocks: seq<BlockData>, opt: ImportOptions, newBoards: seq<Board>,
                              news: seq<BlockData>, ren: map<string, string>, used: set<string>, now: set<string>,
                              i: nat, j: nat)
    requires OneBoardImport(board, blocks, opt, newBoards, news, ren, used, now) && i < |blocks| && j < |blocks|
    ensures |news| == |blocks|
    ensures news[i].id == news[j].id <==> i == j
    ensures news[i].parentID == news[j].id <==> blocks[i].parentID == blocks[j].id
    ensures news[j].id in OrderIds(news[i].contentOrder) <==> blocks[j].id in OrderIds(blocks[i].contentOrder)
    ensures news[j].id in OrderIds(news[i].cardOrder) <==>
              blocks[j].id in OrderIds(blocks[i].cardOrder) && NamedBy(blocks, blocks[j].id)
    ensures news[j].id in TextIds(news[i].defaultTemplateId) <==>
              blocks[j].id in TextIds(blocks[i].defaultTemplateId) && NamedBy(blocks, blocks[j].id)
    ensures OrderFollows(blocks, news, BlockIDs(blocks), blocks[i].contentOrder, news[i].contentOrder)
    ensures OrderFollows(blocks, news, NamedIDs(blocks), blocks[i].cardOrder, news[i].cardOrder)
  {
    var moved := ReissuedMoved(board, blocks, opt, newBoards, news, ren, used, now);
    ShapeKept(moved, news, ren, now, i, j);
    CardOrderKeptIff(moved, news, ren, now, i, j);
    DefaultTemplateKeptIff(moved, news, ren, now, i, j);
    assert blocks[j].id in BlockIDs(blocks);
    NamedIff(blocks, moved, newBoards[0].id, opt, blocks[j].id);
    OrdersFollow(blocks, moved, news, newBoards[0].id, opt, ren, now, i);
  }

  lemma ImportedIDs(blocks: seq<BlockData>, boardID: string, opt: ImportOptions)
    ensures BlockIDs(ImportedBlocks(blocks, boardID, opt)) == BlockIDs(blocks)
  {
    var bs := ImportedBlocks(blocks, boardID, opt);
    forall i | 0 <= i < |blocks| ensures blocks[i].id in BlockIDs(bs) && bs[i].id in BlockIDs(blocks) {
      MentionedAt(blocks, i);
      MentionedAt(bs, i);
    }
  }
}
