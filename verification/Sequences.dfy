/** Optional values and lists: repetition, counting and removal. */
module Sequences {

  datatype Option<T> = None | Some(value: T)

  ghost predicate NoRepeats<T>(s: seq<T>) {
    forall i, j :: 0 <= i < j < |s| ==> s[i] != s[j]
  }

  /** How often an element occurs. */
  function Times<T(==)>(s: seq<T>, x: T): nat {
    if s == [] then 0 else (if s[0] == x then 1 else 0) + Times(s[1..], x)
  }

  /** The list without the given element. */
  function Without<T(==)>(s: seq<T>, x: T): seq<T> {
    if s == [] then []
    else if s[0] == x then Without(s[1..], x)
    else [s[0]] + Without(s[1..], x)
  }

  /** The elements with a property, in their order. */
  ghost function Filter<T(!new)>(s: seq<T>, keep: T -> bool): seq<T> {
    if s == [] then [] else (if keep(s[0]) then [s[0]] else []) + Filter(s[1..], keep)
  }

  lemma JoinJoin<T>(r: seq<T>, s: seq<T>, t: seq<T>)
    ensures r + (s + t) == r + s + t
  {
  }

  lemma {:induction false} TimesJoin<T>(s: seq<T>, t: seq<T>, x: T)
    ensures Times(s + t, x) == Times(s, x) + Times(t, x)
  {
    if s == [] {
      assert s + t == t;
    } else {
      assert (s + t)[1..] == s[1..] + t;
      TimesJoin(s[1..], t, x);
    }
  }

  lemma {:induction false} TimesIn<T>(s: seq<T>, x: T)
    ensures Times(s, x) > 0 <==> x in s
    ensures NoRepeats(s) ==> Times(s, x) <= 1
  {
    if s == [] {
    } else {
      TimesIn(s[1..], x);
    }
  }

  lemma {:induction false} NoRepeatsIff<T(!new)>(s: seq<T>)
    ensures NoRepeats(s) <==> forall x :: Times(s, x) <= 1
  {
    if NoRepeats(s) {
      forall x ensures Times(s, x) <= 1 {
        TimesIn(s, x);
      }
    } else {
      var i, j :| 0 <= i < j < |s| && s[i] == s[j];
      assert s == s[..j] + s[j..];
      TimesJoin(s[..j], s[j..], s[i]);
      TimesIn(s[..j], s[i]);
      assert s[..j][i] == s[i];
      assert Times(s, s[i]) > 1;
    }
  }

  lemma PushNoRepeats<T>(s: seq<T>, x: T)
    requires NoRepeats(s) && x !in s
    ensures NoRepeats(s + [x])
  {
  }

  lemma JoinNoRepeats<T>(s: seq<T>, t: seq<T>)
    ensures NoRepeats(s + t) <==> NoRepeats(s) && NoRepeats(t) && forall x :: x in s ==> x !in t
  {
    forall x | x in s && x in t ensures !NoRepeats(s + t) {
      var i :| 0 <= i < |s| && s[i] == x;
      var j :| 0 <= j < |t| && t[j] == x;
      assert (s + t)[i] == (s + t)[|s| + j];
    }
    if NoRepeats(s + t) {
      assert s == (s + t)[..|s|] && t == (s + t)[|s|..];
    } else {
      var i, j :| 0 <= i < j < |s + t| && (s + t)[i] == (s + t)[j];
      assert i < |s| ==> s[i] in s;
      assert |s| <= j ==> t[j - |s|] in t;
    }
  }

  lemma {:induction false} WithoutPush<T>(s: seq<T>, x: T, y: T)
    ensures Without(s + [y], x) == Without(s, x) + if y != x then [y] else []
  {
    if s == [] {
      assert s + [y] == [y];
    } else {
      assert (s + [y])[1..] == s[1..] + [y];
      WithoutPush(s[1..], x, y);
    }
  }

  lemma {:induction false} WithoutJoin<T>(s: seq<T>, t: seq<T>, x: T)
    ensures Without(s + t, x) == Without(s, x) + Without(t, x)
  {
    if s == [] {
      assert s + t == t;
    } else {
      assert (s + t)[1..] == s[1..] + t;
      WithoutJoin(s[1..], t, x);
    }
  }

  lemma {:induction false} WithoutNone<T>(s: seq<T>, x: T)
    requires x !in s
    ensures Without(s, x) == s
  {
    if s == [] {
    } else {
      WithoutNone(s[1..], x);
    }
  }

  lemma {:induction false} InWithout<T>(s: seq<T>, x: T, y: T)
    ensures y in Without(s, x) <==> y in s && y != x
  {
    if s == [] {
    } else {
      InWithout(s[1..], x, y);
    }
  }

  lemma {:induction false} WithoutNoRepeats<T>(s: seq<T>, x: T)
    requires NoRepeats(s)
    ensures NoRepeats(Without(s, x))
  {
    if s == [] {
    } else {
      WithoutNoRepeats(s[1..], x);
      InWithout(s[1..], x, s[0]);
    }
  }
}
