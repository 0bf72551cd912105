/** A two-way subscription index: for each topic the clients subscribed to it, and for each client
    the topics it is subscribed to.  Both websocket front ends keep such indexes, one for teams and
    one for blocks. */
module Subscriptions {
  import opened Sequences

  datatype Index<S(==)> = Index(byTopic: map<string, seq<S>>, topics: map<S, seq<string>>)

  function At<S>(m: map<string, seq<S>>, topic: string): seq<S> {
    if topic in m then m[topic] else []
  }

  /** Removes every occurrence of an element, by copying the others. */
  method Remove<T(==)>(s: seq<T>, x: T) returns (r: seq<T>)
    ensures r == Without(s, x)
  {
    r := [];
    for i := 0 to |s|
      invariant r == Without(s[..i], x)
    {
      assert s[..i + 1] == s[..i] + [s[i]];
      WithoutPush(s[..i], x, s[i]);
      if s[i] != x {
        r := r + [s[i]];
      }
    }
    assert s[..|s|] == s;
  }

  /** Both directions agree, and neither lists anything twice. */
  ghost predicate Agree<S>(ix: Index<S>) {
    && (forall t :: NoRepeats(At(ix.byTopic, t)))
    && (forall s :: s in ix.topics ==> NoRepeats(ix.topics[s]))
    && (forall t, i :: 0 <= i < |At(ix.byTopic, t)| ==>
          At(ix.byTopic, t)[i] in ix.topics)
    && (forall t, s :: s in ix.topics ==>
          (s in At(ix.byTopic, t) <==> t in ix.topics[s]))
  }

  function Join<S(==)>(ix: Index<S>, s: S): Index<S> {
    ix.(topics := ix.topics[s := []])
  }

  function Link<S(==)>(ix: Index<S>, s: S, t: string): Index<S>
    requires s in ix.topics
  {
    Index(ix.byTopic[t := At(ix.byTopic, t) + [s]], ix.topics[s := ix.topics[s] + [t]])
  }

  function Unlink<S(==)>(ix: Index<S>, s: S, t: string): Index<S>
    requires s in ix.topics
  {
    Index(ix.byTopic[t := Without(At(ix.byTopic, t), s)], ix.topics[s := Without(ix.topics[s], t)])
  }

  function UnlinkAll<S(==)>(ix: Index<S>, s: S, ts: seq<string>): Index<S>
    requires s in ix.topics
    decreases |ts|
  {
    if ts == [] then ix else UnlinkAll(Unlink(ix, s, ts[0]), s, ts[1..])
  }

  /** Links to the topics the client is not subscribed to yet. */
  function LinkAll<S(==)>(ix: Index<S>, s: S, ts: seq<string>): Index<S>
    requires s in ix.topics
    decreases |ts|
  {
    if ts == [] then ix
    else LinkAll(if ts[0] in ix.topics[s] then ix else Link(ix, s, ts[0]), s, ts[1..])
  }

  /** Unlinks from the topics the client is subscribed to. */
  function UnlinkListed<S(==)>(ix: Index<S>, s: S, ts: seq<string>): Index<S>
    requires s in ix.topics
    decreases |ts|
  {
    if ts == [] then ix
    else UnlinkListed(if ts[0] in ix.topics[s] then Unlink(ix, s, ts[0]) else ix, s, ts[1..])
  }

  lemma JoinAgrees<S>(ix: Index<S>, s: S)
    requires Agree(ix) && s !in ix.topics
    ensures Agree(Join(ix, s))
  {
  }

  lemma LinkAgrees<S>(ix: Index<S>, s: S, t: string)
    requires Agree(ix) && s in ix.topics && t !in ix.topics[s]
    ensures Agree(Link(ix, s, t))
  {
    var next := Link(ix, s, t);
    PushNoRepeats(At(ix.byTopic, t), s);
    PushNoRepeats(ix.topics[s], t);
    forall u
      ensures NoRepeats(At(next.byTopic, u))
      ensures forall i :: 0 <= i < |At(next.byTopic, u)| ==> At(next.byTopic, u)[i] in ix.topics
    {
      assert At(next.byTopic, u) == if u == t then At(ix.byTopic, t) + [s] else At(ix.byTopic, u);
    }
    forall u, x | x in ix.topics ensures x in At(next.byTopic, u) <==> u in next.topics[x] {
      assert At(next.byTopic, u) == if u == t then At(ix.byTopic, t) + [s] else At(ix.byTopic, u);
    }
  }

  lemma UnlinkAgrees<S>(ix: Index<S>, s: S, t: string)
    requires Agree(ix) && s in ix.topics
    ensures Agree(Unlink(ix, s, t))
  {
    var next := Unlink(ix, s, t);
    var kept := Without(At(ix.byTopic, t), s);
    WithoutNoRepeats(At(ix.byTopic, t), s);
    WithoutNoRepeats(ix.topics[s], t);
    forall i | 0 <= i < |kept| ensures kept[i] in ix.topics {
      InWithout(At(ix.byTopic, t), s, kept[i]);
      assert kept[i] in At(ix.byTopic, t);
    }
    forall u
      ensures NoRepeats(At(next.byTopic, u))
      ensures forall i :: 0 <= i < |At(next.byTopic, u)| ==> At(next.byTopic, u)[i] in ix.topics
    {
      assert At(next.byTopic, u) == if u == t then kept else At(ix.byTopic, u);
    }
    forall u, x | x in ix.topics ensures x in At(next.byTopic, u) <==> u in next.topics[x] {
      assert At(next.byTopic, u) == if u == t then kept else At(ix.byTopic, u);
      InWithout(At(ix.byTopic, t), s, x);
      InWithout(ix.topics[s], t, u);
    }
  }

  /** Unlinking a client from all its topics, in any order, leaves it none and touches no other. */
  lemma {:induction false} UnlinkAllAgrees<S>(ix: Index<S>, s: S, ts: seq<string>)
    requires Agree(ix) && s in ix.topics
    ensures Agree(UnlinkAll(ix, s, ts))
    ensures UnlinkAll(ix, s, ts).topics.Keys == ix.topics.Keys
    ensures forall x :: x in ix.topics && x != s ==> UnlinkAll(ix, s, ts).topics[x] == ix.topics[x]
    ensures forall t :: t in UnlinkAll(ix, s, ts).topics[s] <==> t in ix.topics[s] && t !in ts
    decreases |ts|
  {
    if ts == [] {
    } else {
      var next := Unlink(ix, s, ts[0]);
      UnlinkAgrees(ix, s, ts[0]);
      UnlinkAllAgrees(next, s, ts[1..]);
      forall t ensures t in next.topics[s] <==> t in ix.topics[s] && t != ts[0] {
        InWithout(ix.topics[s], ts[0], t);
      }
    }
  }

  lemma HasMember(s: seq<string>)
    ensures s != [] ==> exists t :: t in s
  {
    if s != [] {
      assert s[0] in s;
    }
  }

  lemma UnlinkEverything<S>(ix: Index<S>, s: S)
    requires Agree(ix) && s in ix.topics
    ensures Agree(UnlinkAll(ix, s, ix.topics[s]))
    ensures UnlinkAll(ix, s, ix.topics[s]).topics == ix.topics[s := []]
  {
    UnlinkAllAgrees(ix, s, ix.topics[s]);
    var left := UnlinkAll(ix, s, ix.topics[s]).topics[s];
    HasMember(left);
  }

  lemma {:induction false} LinkAllAgrees<S>(ix: Index<S>, s: S, ts: seq<string>)
    requires Agree(ix) && s in ix.topics
    ensures Agree(LinkAll(ix, s, ts))
    ensures LinkAll(ix, s, ts).topics.Keys == ix.topics.Keys
    ensures forall x :: x in ix.topics && x != s ==> LinkAll(ix, s, ts).topics[x] == ix.topics[x]
    ensures forall t :: t in LinkAll(ix, s, ts).topics[s] <==> t in ix.topics[s] || t in ts
    decreases |ts|
  {
    if ts == [] {
    } else {
      var next := if ts[0] in ix.topics[s] then ix else Link(ix, s, ts[0]);
      if ts[0] !in ix.topics[s] {
        LinkAgrees(ix, s, ts[0]);
      }
      LinkAllAgrees(next, s, ts[1..]);
    }
  }

  lemma {:induction false} UnlinkListedAgrees<S>(ix: Index<S>, s: S, ts: seq<string>)
    requires Agree(ix) && s in ix.topics
    ensures Agree(UnlinkListed(ix, s, ts))
    ensures UnlinkListed(ix, s, ts).topics.Keys == ix.topics.Keys
    ensures forall x :: x in ix.topics && x != s ==> UnlinkListed(ix, s, ts).topics[x] == ix.topics[x]
    ensures forall t :: t in UnlinkListed(ix, s, ts).topics[s] <==> t in ix.topics[s] && t !in ts
    decreases |ts|
  {
    if ts == [] {
    } else {
      var next := if ts[0] in ix.topics[s] then Unlink(ix, s, ts[0]) else ix;
      if ts[0] in ix.topics[s] {
        UnlinkAgrees(ix, s, ts[0]);
      }
      UnlinkListedAgrees(next, s, ts[1..]);
      forall t ensures t in next.topics[s] <==> t in ix.topics[s] && t != ts[0] {
        InWithout(ix.topics[s], ts[0], t);
      }
    }
  }
}
