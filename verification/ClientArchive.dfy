/** The archive format of the import tools: a header line, a line for each board, and a line for
    each block.  Reading keeps the blocks. */
module ClientArchive {
  import opened Lines
  import opened BlockIds
  import opened BoardsAndBlocks
  import opened Sequences

  datatype Header = Header(version: int, date: int)

  /** The `type` of a line; a missing one reads as `OtherLine("")`. */
  datatype LineType = BoardLine | BlockLine | OtherLine(name: string)

  /** The `data` of a line; `Missing` stands for any falsy value. */
  datatype Payload = BoardPayload(board: Board) | BlockPayload(block: BlockData) | OtherPayload(json: string) | Missing

  datatype ArchiveLine = ArchiveLine(kind: LineType, data: Payload)

  datatype Error = BadJson | BadHeader | BadLine(lineNum: nat)
  datatype Result = Ok(blocks: seq<Payload>) | Err(error: Error)

  type HeaderCodec = Codec<Header>
  type LineCodec = Codec<ArchiveLine>

  function BoardLines(boards: seq<Board>, codec: LineCodec): (r: seq<string>)
    ensures |r| == |boards|
  {
    seq(|boards|, i requires 0 <= i < |boards| => codec.encode(ArchiveLine(BoardLine, BoardPayload(boards[i]))))
  }

  function BlockLines(blocks: seq<BlockData>, codec: LineCodec): (r: seq<string>)
    ensures |r| == |blocks|
  {
    seq(|blocks|, i requires 0 <= i < |blocks| => codec.encode(ArchiveLine(BlockLine, BlockPayload(blocks[i]))))
  }

  /** The lines of an archive written at time `now`. */
  function ArchiveLines(boards: seq<Board>, blocks: seq<BlockData>, now: int, headers: HeaderCodec,
                        codec: LineCodec): seq<string> {
    [headers.encode(Header(1, now))] + BoardLines(boards, codec) + BlockLines(blocks, codec)
  }

  /** The pieces of a written archive: the header, the boards and the blocks in their order, and what follows the
      last newline. */
  ghost predicate IsArchive(pieces: seq<string>, boards: seq<Board>, blocks: seq<BlockData>, now: int,
                            headers: HeaderCodec, codec: LineCodec)
  {
    var b := |boards| + 1;
    && |pieces| == b + |blocks| + 1 && pieces[b + |blocks|] == ""
    && headers.decode(pieces[0]) == Some(Header(1, now))
    && (forall i :: 1 <= i < b ==> codec.decode(pieces[i]) == Some(ArchiveLine(BoardLine, BoardPayload(boards[i - 1]))))
    && (forall i :: b <= i < b + |blocks| ==>
          codec.decode(pieces[i]) == Some(ArchiveLine(BlockLine, BlockPayload(blocks[i - b]))))
  }

  lemma ArchivePieces(boards: seq<Board>, blocks: seq<BlockData>, now: int, headers: HeaderCodec, codec: LineCodec)
    requires headers.Valid() && codec.Valid()
    ensures IsArchive(Split(Unlines(ArchiveLines(boards, blocks, now, headers, codec))), boards, blocks, now, headers,
              codec)
  {
    SplitUnlines(ArchiveLines(boards, blocks, now, headers, codec));
  }

  method BuildBlockArchive(boards: seq<Board>, blocks: seq<BlockData>, now: int, headers: HeaderCodec, codec: LineCodec)
    returns (content: string)
    ensures content == Unlines(ArchiveLines(boards, blocks, now, headers, codec))
    ensures headers.Valid() && codec.Valid() ==> IsArchive(Split(content), boards, blocks, now, headers, codec)
  {
    var headerString := headers.encode(Header(1, now));
    content := headerString + "\n";
    ghost var header, ls, ks := [headerString], BoardLines(boards, codec), BlockLines(blocks, codec);
    assert Unlines(header) == headerString + "\n" + Unlines([]);
    for i := 0 to |boards|
      invariant content == Unlines(header + ls[..i])
    {
      var lineString := codec.encode(ArchiveLine(BoardLine, BoardPayload(boards[i])));
      assert header + ls[..i + 1] == header + ls[..i] + [lineString];
      UnlinesPush(header + ls[..i], lineString);
      content := content + lineString;
      content := content + "\n";
    }
    assert header + ls[..|boards|] == header + ls == header + ls + ks[..0];
    for i := 0 to |blocks|
      invariant content == Unlines(header + ls + ks[..i])
    {
      var lineString := codec.encode(ArchiveLine(BlockLine, BlockPayload(blocks[i])));
      assert header + ls + ks[..i + 1] == header + ls + ks[..i] + [lineString];
      UnlinesPush(header + ls + ks[..i], lineString);
      content := content + lineString;
      content := content + "\n";
    }
    assert header + ls + ks[..|blocks|] == header + ls + ks;
    if headers.Valid() && codec.Valid() {
      ArchivePieces(boards, blocks, now, headers, codec);
    }
  }

  predicate BadArchiveLine(line: ArchiveLine) {
    line.kind == OtherLine("") || line.data.Missing?
  }

  /** The blocks of the lines after the header; empty lines are skipped and not counted. */
  function ParseLines(lines: seq<string>, lineNum: nat, codec: LineCodec): Result {
    if lines == [] then Ok([])
    else if lines[0] == "" then ParseLines(lines[1..], lineNum, codec)
    else match codec.decode(lines[0])
      case None => Err(BadJson)
      case Some(line) =>
        if BadArchiveLine(line) then Err(BadLine(lineNum))
        else Prefixed(if line.kind == BlockLine then [line.data] else [], ParseLines(lines[1..], lineNum + 1, codec))
  }

  function Prefixed(blocks: seq<Payload>, r: Result): Result {
    if r.Ok? then Ok(blocks + r.blocks) else r
  }

  lemma PrefixedTwice(a: seq<Payload>, b: seq<Payload>, r: Result)
    ensures Prefixed(a, Prefixed(b, r)) == Prefixed(a + b, r)
  {
    if r.Ok? {
      assert a + (b + r.blocks) == a + b + r.blocks;
    }
  }

  /** What a text parses to: nothing if it is not two lines long, else what follows a good header. */
  function ParseArchive(contents: string, headers: HeaderCodec, codec: LineCodec): Result {
    var lines := Split(contents);
    if |lines| < 2 then Ok([])
    else match headers.decode(lines[0])
      case None => Err(BadJson)
      case Some(header) =>
        if header.date != 0 && header.version >= 1 then ParseLines(lines[1..], 2, codec) else Err(BadHeader)
  }

  ghost predicate IsBlockLine(line: string, codec: LineCodec) {
    line != "" && codec.decode(line).Some? && codec.decode(line).value.kind == BlockLine
  }

  /** A line that parses, with a type and data; empty lines do not matter. */
  ghost predicate IsFine(line: string, codec: LineCodec) {
    line != "" ==>
      && codec.decode(line).Some?
      && codec.decode(line).value.kind != OtherLine("") && codec.decode(line).value.data != Missing
  }

  ghost function Nonempty(lines: seq<string>): nat {
    |Filter(lines, (l: string) => l != "")|
  }

  /** The blocks are the data of the block lines in order. */
  ghost predicate BlocksOf(lines: seq<string>, codec: LineCodec, blocks: seq<Payload>) {
    var blockLines := Filter(lines, (l: string) => IsBlockLine(l, codec));
    && |blocks| == |blockLines|
    && forall i :: 0 <= i < |blocks| ==> codec.decode(blockLines[i]) == Some(ArchiveLine(BlockLine, blocks[i]))
  }

  ghost predicate FirstBad(lines: seq<string>, k: nat, codec: LineCodec) {
    k < |lines| && !IsFine(lines[k], codec) && forall i :: 0 <= i < k ==> IsFine(lines[i], codec)
  }

  /** The first line that is not fine decides the error, with its number among the lines that are not empty. */
  ghost predicate ErrorAt(lines: seq<string>, k: nat, lineNum: nat, codec: LineCodec, r: Result) {
    && FirstBad(lines, k, codec)
    && r == Err(if codec.decode(lines[k]).None? then BadJson else BadLine(lineNum + Nonempty(lines[..k])))
  }

  ghost predicate Parses(lines: seq<string>, lineNum: nat, codec: LineCodec, r: Result) {
    || (r.Ok? && (forall l :: l in lines ==> IsFine(l, codec)) && BlocksOf(lines, codec, r.blocks))
    || exists k: nat :: ErrorAt(lines, k, lineNum, codec, r)
  }

  lemma BlocksOfNext(first: string, rest: seq<string>, codec: LineCodec, blocks: seq<Payload>)
    requires IsFine(first, codec) && BlocksOf(rest, codec, blocks)
    ensures BlocksOf([first] + rest, codec,
              if IsBlockLine(first, codec) then [codec.decode(first).value.data] + blocks else blocks)
  {
    var lines, keep := [first] + rest, (l: string) => IsBlockLine(l, codec);
    assert lines[1..] == rest;
    assert Filter(lines, keep) == (if keep(first) then [first] else []) + Filter(rest, keep);
  }

  lemma ErrorNext(first: string, rest: seq<string>, k: nat, lineNum: nat, codec: LineCodec, r: Result)
    requires IsFine(first, codec) && ErrorAt(rest, k, if first == "" then lineNum else lineNum + 1, codec, r)
    ensures ErrorAt([first] + rest, k + 1, lineNum, codec, r)
  {
    var lines := [first] + rest;
    assert lines[..k + 1] == [first] + rest[..k] && lines[..k + 1][1..] == rest[..k];
    forall i | 0 <= i < k + 1 ensures IsFine(lines[i], codec) {
      if i > 0 {
        assert lines[i] == rest[i - 1];
      }
    }
  }

  lemma {:induction false} ParseLinesParses(lines: seq<string>, lineNum: nat, codec: LineCodec)
    ensures Parses(lines, lineNum, codec, ParseLines(lines, lineNum, codec))
  {
    if lines == [] {
    } else {
      var first, rest := lines[0], lines[1..];
      assert lines == [first] + rest;
      if !IsFine(first, codec) {
        assert lines[..0] == [];
        assert ErrorAt(lines, 0, lineNum, codec, ParseLines(lines, lineNum, codec));
      } else {
        var next := if first == "" then lineNum else lineNum + 1;
        var r := ParseLines(rest, next, codec);
        ParseLinesParses(rest, next, codec);
        if k: nat :| ErrorAt(rest, k, next, codec, r) {
          ErrorNext(first, rest, k, lineNum, codec, r);
        } else {
          BlocksOfNext(first, rest, codec, r.blocks);
          assert [] + r.blocks == r.blocks;
        }
      }
    }
  }

  method ParseBlockArchive(contents: string, headers: HeaderCodec, codec: LineCodec) returns (r: Result)
    ensures r == ParseArchive(contents, headers, codec)
    ensures var pieces := Split(contents);
            if |pieces| < 2 then r == Ok([])
            else if headers.decode(pieces[0]).None? then r == Err(BadJson)
            else if headers.decode(pieces[0]).value.date == 0 || headers.decode(pieces[0]).value.version < 1
            then r == Err(BadHeader)
            else Parses(pieces[1..], 2, codec, r)
  {
    var blocks := [];
    var allLineStrings := Split(contents);
    if |allLineStrings| >= 2 {
      var header := headers.decode(allLineStrings[0]);
      if header.None? {
        return Err(BadJson);
      }
      if header.value.date != 0 && header.value.version >= 1 {
        var lineStrings := allLineStrings[1..];
        var lineNum := 2;
        ParseLinesParses(lineStrings, 2, codec);
        for i := 0 to |lineStrings|
          invariant ParseLines(lineStrings, 2, codec) == Prefixed(blocks, ParseLines(lineStrings[i..], lineNum, codec))
        {
          var lineString := lineStrings[i];
          assert lineStrings[i..][1..] == lineStrings[i + 1..];
          if lineString == "" {
            continue;
          }
          var line := codec.decode(lineString);
          if line.None? {
            return Err(BadJson);
          }
          if BadArchiveLine(line.value) {
            return Err(BadLine(lineNum));
          }
          if line.value.kind == BlockLine {
            PrefixedTwice(blocks, [line.value.data], ParseLines(lineStrings[i + 1..], lineNum + 1, codec));
            blocks := blocks + [line.value.data];
          }
          lineNum := lineNum + 1;
        }
      } else {
        return Err(BadHeader);
      }
    }
    return Ok(blocks);
  }

  function Payloads(blocks: seq<BlockData>): (r: seq<Payload>)
    ensures |r| == |blocks|
  {
    seq(|blocks|, i requires 0 <= i < |blocks| => BlockPayload(blocks[i]))
  }

  lemma {:induction false} ParseBlockLines(blocks: seq<BlockData>, lineNum: nat, codec: LineCodec)
    requires codec.Valid()
    ensures ParseLines(BlockLines(blocks, codec) + [""], lineNum, codec) == Ok(Payloads(blocks))
  {
    var ls := BlockLines(blocks, codec);
    if blocks == [] {
      assert ls + [""] == [""] && [""][1..] == [];
    } else {
      assert ls == [ls[0]] + BlockLines(blocks[1..], codec);
      assert (ls + [""])[1..] == BlockLines(blocks[1..], codec) + [""];
      ParseBlockLines(blocks[1..], lineNum + 1, codec);
      assert Payloads(blocks) == [BlockPayload(blocks[0])] + Payloads(blocks[1..]);
    }
  }

  lemma {:induction false} ParseBoardLines(boards: seq<Board>, rest: seq<string>, lineNum: nat, codec: LineCodec)
    requires codec.Valid()
    ensures ParseLines(BoardLines(boards, codec) + rest, lineNum, codec) == ParseLines(rest, lineNum + |boards|, codec)
  {
    var ls := BoardLines(boards, codec);
    if boards == [] {
      assert ls + rest == rest;
    } else {
      assert ls == [ls[0]] + BoardLines(boards[1..], codec);
      assert (ls + rest)[1..] == BoardLines(boards[1..], codec) + rest;
      ParseBoardLines(boards[1..], rest, lineNum + 1, codec);
    }
  }

  /** Reading back a written archive gives the same blocks in the same order, and that at every
      time but one: an archive dated 0 is refused for its header. */
  lemma ArchiveRoundTrip(boards: seq<Board>, blocks: seq<BlockData>, now: int, headers: HeaderCodec, codec: LineCodec)
    requires headers.Valid() && codec.Valid()
    ensures var r := ParseArchive(Unlines(ArchiveLines(boards, blocks, now, headers, codec)), headers, codec);
            r == if now != 0 then Ok(Payloads(blocks)) else Err(BadHeader)
  {
    var tail := BoardLines(boards, codec) + (BlockLines(blocks, codec) + [""]);
    var ls := ArchiveLines(boards, blocks, now, headers, codec);
    SplitUnlines(ls);
    assert ls + [""] == [ls[0]] + (BoardLines(boards, codec) + (BlockLines(blocks, codec) + [""]));
    ParseBoardLines(boards, BlockLines(blocks, codec) + [""], 2, codec);
    ParseBlockLines(blocks, 2 + |boards|, codec);
    assert ([ArchiveLines(boards, blocks, now, headers, codec)[0]] + tail)[1..] == tail;
  }
}
