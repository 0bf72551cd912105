/** Line-oriented archive text: every value is one line of JSON. */
module Lines {

  import opened Sequences

  /** Every line followed by a newline. */
  function Unlines(ls: seq<string>): string {
    if ls == [] then "" else ls[0] + "\n" + Unlines(ls[1..])
  }

  /** `split('\n')`: the pieces between newlines, the last one included even if empty. */
  function Split(s: string): (r: seq<string>)
    ensures |r| > 0
  {
    if s == "" then [""]
    else if s[0] == '\n' then [""] + Split(s[1..])
    else
      var rest := Split(s[1..]);
      [[s[0]] + rest[0]] + rest[1..]
  }

  function DropCR(line: string): string {
    if line != "" && line[|line| - 1] == '\r' then line[..|line| - 1] else line
  }

  function DropCRs(lines: seq<string>): (r: seq<string>)
    ensures |r| == |lines|
  {
    seq(|lines|, i requires 0 <= i < |lines| => DropCR(lines[i]))
  }

  /** The tokens of a line scanner: no token after a final newline, and no trailing carriage return. */
  function ScanLines(s: string): seq<string> {
    var pieces := Split(s);
    DropCRs(if pieces[|pieces| - 1] == "" then pieces[..|pieces| - 1] else pieces)
  }

  predicate IsSpace(c: char) {
    c == ' ' || '\t' <= c <= '\r' || c == '\U{85}' || c == '\U{A0}' || c == '\U{1680}' || '\U{2000}' <= c <= '\U{200A}'
    || c == '\U{2028}' || c == '\U{2029}' || c == '\U{202F}' || c == '\U{205F}' || c == '\U{3000}'
  }

  /** The string without the white space at its ends. */
  function TrimSpace(s: string): string {
    if s == "" then s
    else if IsSpace(s[0]) then TrimSpace(s[1..])
    else if IsSpace(s[|s| - 1]) then TrimSpace(s[..|s| - 1])
    else s
  }

  /** The text of a JSON object, as a marshaller writes it: in braces, with every control character
      inside strings escaped (section 7 of RFC 8259), so that it holds no raw newline. */
  predicate IsObjectText(s: string) {
    |s| >= 2 && s[0] == '{' && s[|s| - 1] == '}' && '\n' !in s
  }

  /** A marshaller and the matching parser for values that are JSON objects. */
  datatype Codec<!T(!new)> = Codec(encode: T -> string, decode: string -> Option<T>) {
    ghost predicate Valid() {
      forall x :: IsObjectText(encode(x)) && decode(encode(x)) == Some(x)
    }
  }

  lemma {:induction false} SplitLine(line: string, rest: string)
    requires '\n' !in line
    ensures Split(line + "\n" + rest) == [line] + Split(rest)
  {
    if line == "" {
      assert line + "\n" + rest == "\n" + rest;
      assert ("\n" + rest)[1..] == rest;
    } else {
      assert (line + "\n" + rest)[1..] == line[1..] + "\n" + rest;
      SplitLine(line[1..], rest);
      assert [line[0]] + line[1..] == line;
    }
  }

  /** Splitting a text of lines gives back the lines, and an empty piece after the last newline. */
  lemma {:induction false} SplitUnlines(ls: seq<string>)
    requires forall l :: l in ls ==> '\n' !in l
    ensures Split(Unlines(ls)) == ls + [""]
  {
    if ls == [] {
    } else {
      SplitLine(ls[0], Unlines(ls[1..]));
      SplitUnlines(ls[1..]);
    }
  }

  /** A line scanner reads back lines without a newline, less a trailing carriage return; so as they were
      written exactly if none ends in one. */
  lemma ScanUnlines(ls: seq<string>)
    requires forall l :: l in ls ==> '\n' !in l
    ensures ScanLines(Unlines(ls)) == DropCRs(ls)
    ensures ScanLines(Unlines(ls)) == ls <==> forall l :: l in ls ==> l == "" || l[|l| - 1] != '\r'
  {
    SplitUnlines(ls);
    assert (ls + [""])[..|ls|] == ls;
    if ScanLines(Unlines(ls)) == ls {
      forall l | l in ls ensures l == "" || l[|l| - 1] != '\r' {
        var i :| 0 <= i < |ls| && ls[i] == l;
        assert DropCRs(ls)[i] == DropCR(l);
      }
    } else {
      var i :| 0 <= i < |ls| && DropCRs(ls)[i] != ls[i];
      assert ls[i] in ls;
    }
  }

  /** In particular it reads back object texts as they were written. */
  lemma ScanObjects(ls: seq<string>)
    requires forall l :: l in ls ==> IsObjectText(l)
    ensures ScanLines(Unlines(ls)) == ls
  {
    ScanUnlines(ls);
  }

  lemma {:induction false} UnlinesAppend(a: seq<string>, b: seq<string>)
    ensures Unlines(a + b) == Unlines(a) + Unlines(b)
  {
    if a == [] {
      assert a + b == b;
    } else {
      assert (a + b)[1..] == a[1..] + b;
      UnlinesAppend(a[1..], b);
    }
  }

  lemma UnlinesPush(ls: seq<string>, l: string)
    ensures Unlines(ls + [l]) == Unlines(ls) + l + "\n"
  {
    UnlinesAppend(ls, [l]);
    assert Unlines([l]) == l + "\n" + Unlines([]);
  }
}
