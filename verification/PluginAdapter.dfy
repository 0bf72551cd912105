/** The websocket adapter of the plugin: clients that survive short disconnects, indexed by
    connection, by user and by team, and the choice of recipients for a change. */
module PluginAdapter {
  import opened Sequences
  import opened Subscriptions

  /** How long an inactive client is kept, in milliseconds. */
  const STALE_THRESHOLD := 300000

  /** A client: its connection, its user, and since when it is inactive, or 0 while it is active. */
  datatype Info = Info(conn: string, userID: string, inactiveAt: int)

  /** The registered clients by connection, what is known of each, and the user and team indexes.
      In the user index a client's one topic is its user. */
  datatype State<S(==)> = State(listeners: map<string, S>, info: map<S, Info>, users: Index<S>, teams: Index<S>)

  /** What the store answers when asked for the members of a board. */
  datatype Stored = Members(userIDs: seq<string>) | Unreadable

  datatype Event<S> =
    | Connect(conn: string, userID: string, s: S, now: int)    // `s` is the client object to register
    | Disconnect(conn: string, now: int)
    | SubscribeTeam(conn: string, teamID: string, access: bool)
    | UnsubscribeTeam(conn: string, teamID: string)

  predicate IsActive(i: Info) {
    i.inactiveAt == 0
  }

  predicate HasExpired(i: Info, now: int) {
    i.inactiveAt + STALE_THRESHOLD <= now
  }

  /** The indexes agree with the registered clients, one for each connection. */
  ghost predicate Inv<S>(st: State<S>) {
    && Agree(st.users) && Agree(st.teams)
    && st.users.topics.Keys == st.info.Keys == st.teams.topics.Keys
    && (forall s :: s in st.info ==> st.users.topics[s] == [st.info[s].userID])
    && (forall s :: s in st.info ==> st.info[s].conn in st.listeners && st.listeners[st.info[s].conn] == s)
    && (forall conn :: conn in st.listeners ==>
          st.listeners[conn] in st.info && st.info[st.listeners[conn]].conn == conn)
  }

  function Leave<S(==)>(ix: Index<S>, s: S): Index<S> {
    ix.(topics := ix.topics - {s})
  }

  /** With a new client under one topic. */
  function Enrolled<S(==)>(ix: Index<S>, s: S, t: string): Index<S> {
    Index(ix.byTopic[t := At(ix.byTopic, t) + [s]], ix.topics[s := [t]])
  }

  function Registered<S(==)>(st: State<S>, s: S, conn: string, userID: string): State<S> {
    State(st.listeners[conn := s], st.info[s := Info(conn, userID, 0)],
          Enrolled(st.users, s, userID), Join(st.teams, s))
  }

  /** Without the client, which may still be listed under teams. */
  function Forgotten<S(==)>(st: State<S>, s: S): State<S>
    requires s in st.info && s in st.users.topics
  {
    State(st.listeners - {st.info[s].conn}, st.info - {s},
          Leave(Unlink(st.users, s, st.info[s].userID), s), Leave(st.teams, s))
  }

  function Removed<S(==)>(st: State<S>, s: S): State<S>
    requires s in st.info && s in st.users.topics && s in st.teams.topics
  {
    Forgotten(st.(teams := UnlinkAll(st.teams, s, st.teams.topics[s])), s)
  }

  /** Removes the inactive stale ones among the given clients. */
  function Expired<S(==)>(st: State<S>, ss: seq<S>, now: int): State<S>
    requires Inv(st)
    decreases |ss|
  {
    if ss == [] then st
    else if ss[0] in st.info && !IsActive(st.info[ss[0]]) && HasExpired(st.info[ss[0]], now) then
      RemovedKeeps(st, ss[0]);
      Expired(Removed(st, ss[0]), ss[1..], now)
    else Expired(st, ss[1..], now)
  }

  function SetInactive<S(==)>(st: State<S>, s: S, at: int): State<S>
    requires s in st.info
  {
    st.(info := st.info[s := st.info[s].(inactiveAt := at)])
  }

  /** The registered client of a connection, if any, becomes inactive at the given time, or active. */
  function Touched<S(==)>(st: State<S>, conn: string, at: int): State<S>
    requires Inv(st)
  {
    if conn in st.listeners then SetInactive(st, st.listeners[conn], at) else st
  }

  /** A client object is registered once. */
  predicate Possible<S(==)>(st: State<S>, e: Event<S>) {
    e.Connect? && e.conn !in st.listeners ==> e.s !in st.info
  }

  function Step<S(==)>(st: State<S>, e: Event<S>): State<S>
    requires Inv(st) && Possible(st, e)
  {
    match e
    case Connect(conn, userID, s, now) =>
      if conn in st.listeners then Touched(st, conn, 0)
      else
        RegisteredKeeps(st, s, conn, userID);
        var next := Registered(st, s, conn, userID);
        Expired(next, At(next.users.byTopic, userID), now)
    case Disconnect(conn, now) =>
      Touched(st, conn, now)
    case SubscribeTeam(conn, t, access) =>
      if conn in st.listeners && access && t !in st.teams.topics[st.listeners[conn]]
      then st.(teams := Link(st.teams, st.listeners[conn], t)) else st
    case UnsubscribeTeam(conn, t) =>
      if conn in st.listeners && t in st.teams.topics[st.listeners[conn]]
      then st.(teams := Unlink(st.teams, st.listeners[conn], t)) else st
  }

  lemma LeaveAgrees<S>(ix: Index<S>, s: S)
    requires Agree(ix) && s in ix.topics && ix.topics[s] == []
    ensures Agree(Leave(ix, s))
  {
    forall t, i | 0 <= i < |At(ix.byTopic, t)| ensures At(ix.byTopic, t)[i] != s {
      assert At(ix.byTopic, t)[i] in At(ix.byTopic, t);
    }
  }

  lemma EnrolAgrees<S>(ix: Index<S>, s: S, t: string)
    requires Agree(ix) && s !in ix.topics
    ensures Agree(Enrolled(ix, s, t))
  {
    JoinAgrees(ix, s);
    LinkAgrees(Join(ix, s), s, t);
    assert [] + [t] == [t];
    assert Link(Join(ix, s), s, t) == Enrolled(ix, s, t);
  }

  lemma RegisteredKeeps<S>(st: State<S>, s: S, conn: string, userID: string)
    requires Inv(st) && conn !in st.listeners && s !in st.info
    ensures Inv(Registered(st, s, conn, userID))
  {
    EnrolAgrees(st.users, s, userID);
    JoinAgrees(st.teams, s);
  }

  lemma UpdateThenDrop<S>(topics: map<S, seq<string>>, s: S, ts: seq<string>)
    ensures topics[s := ts] - {s} == topics - {s}
  {
  }

  lemma SoleTopic<S>(ix: Index<S>, s: S, u: string)
    requires s in ix.topics && ix.topics[s] == [u]
    ensures Unlink(ix, s, u).topics == ix.topics[s := []]
  {
    assert Without([u], u) == [];
  }

  lemma RemovedKeeps<S>(st: State<S>, s: S)
    requires Inv(st) && s in st.info
    ensures Inv(Removed(st, s))
    ensures forall x :: x in st.info && x != s ==>
              Removed(st, s).info[x] == st.info[x] && Removed(st, s).teams.topics[x] == st.teams.topics[x]
  {
    var users := Unlink(st.users, s, st.info[s].userID);
    UnlinkAgrees(st.users, s, st.info[s].userID);
    SoleTopic(st.users, s, st.info[s].userID);
    LeaveAgrees(users, s);
    var teams := UnlinkAll(st.teams, s, st.teams.topics[s]);
    UnlinkEverything(st.teams, s);
    LeaveAgrees(teams, s);
    UpdateThenDrop(st.users.topics, s, []);
    UpdateThenDrop(st.teams.topics, s, []);
  }

  predicate Stale(i: Info, now: int) {
    !IsActive(i) && HasExpired(i, now)
  }

  /** Expiry removes exactly the stale ones of the given clients, and leaves all others untouched. */
  lemma {:induction false} ExpiredFate<S>(st: State<S>, ss: seq<S>, now: int)
    requires Inv(st)
    ensures Inv(Expired(st, ss, now))
    ensures forall s :: s in st.info ==> (s in Expired(st, ss, now).info <==> !(s in ss && Stale(st.info[s], now)))
    ensures forall s :: s in Expired(st, ss, now).info ==>
              s in st.info && Expired(st, ss, now).info[s] == st.info[s] &&
                Expired(st, ss, now).teams.topics[s] == st.teams.topics[s]
    decreases |ss|
  {
    if ss == [] {
    } else {
      if ss[0] in st.info && Stale(st.info[ss[0]], now) {
        RemovedKeeps(st, ss[0]);
        ExpiredFate(Removed(st, ss[0]), ss[1..], now);
      } else {
        ExpiredFate(st, ss[1..], now);
      }
    }
  }

  lemma TouchedKeeps<S>(st: State<S>, conn: string, at: int)
    requires Inv(st)
    ensures Inv(Touched(st, conn, at))
  {
  }

  lemma StepKeeps<S>(st: State<S>, e: Event<S>)
    requires Inv(st) && Possible(st, e)
    ensures Inv(Step(st, e))
  {
    match e
    case Connect(conn, userID, s, now) =>
      if conn in st.listeners {
        TouchedKeeps(st, conn, 0);
      } else {
        RegisteredKeeps(st, s, conn, userID);
        var next := Registered(st, s, conn, userID);
        ExpiredFate(next, At(next.users.byTopic, userID), now);
      }
    case Disconnect(conn, now) =>
      TouchedKeeps(st, conn, now);
    case SubscribeTeam(conn, t, access) =>
      if conn in st.listeners && t !in st.teams.topics[st.listeners[conn]] {
        LinkAgrees(st.teams, st.listeners[conn], t);
      }
    case UnsubscribeTeam(conn, t) =>
      if conn in st.listeners {
        UnlinkAgrees(st.teams, st.listeners[conn], t);
      }
  }

  lemma ConnectFate<S>(st: State<S>, n: S, conn: string, userID: string, now: int, s: S)
    requires Inv(st) && conn !in st.listeners && n !in st.info && s in st.info
    ensures var t := Step(st, Connect(conn, userID, n, now));
            && Inv(t)
            && (s in t.info <==> !(userID == st.info[s].userID && Stale(st.info[s], now)))
            && (s in t.info ==> t.info[s] == st.info[s] && t.teams.topics[s] == st.teams.topics[s])
  {
    RegisteredKeeps(st, n, conn, userID);
    var next := Registered(st, n, conn, userID);
    ExpiredFate(next, At(next.users.byTopic, userID), now);
    assert s in At(next.users.byTopic, userID) <==> userID in next.users.topics[s];
  }

  /** When the client became inactive: at its disconnect, and not at all once it has reconnected. */
  ghost predicate InactiveSince<S>(e: Event<S>, was: Info, now: Info) {
    now.inactiveAt ==
      if e.Disconnect? && e.conn == was.conn then e.now
      else if e.Connect? && e.conn == was.conn then 0
      else was.inactiveAt
  }

  /** A client that has access subscribes to teams, and unsubscribes, one at a time. */
  ghost predicate Subscribes<S>(e: Event<S>, conn: string, was: seq<string>, now: seq<string>) {
    forall t :: t in now <==> e == SubscribeTeam(conn, t, true) || (t in was && e != UnsubscribeTeam(conn, t))
  }

  /** What happens to a registered client: it goes only if it has been inactive for five minutes and its
      user opens a new connection, and it keeps its subscriptions except for its own requests.  In
      particular a client that reconnects in time still has them. */
  lemma StepFate<S>(st: State<S>, e: Event<S>, s: S)
    requires Inv(st) && Possible(st, e) && s in st.info
    ensures Inv(Step(st, e))
    ensures s in Step(st, e).info <==>
              !(&& e.Connect? && e.conn !in st.listeners && e.userID == st.info[s].userID
                && st.info[s].inactiveAt != 0 && e.now - st.info[s].inactiveAt >= 5 * 60 * 1000)
    ensures s in Step(st, e).info ==>
              Step(st, e).info[s].conn == st.info[s].conn && Step(st, e).info[s].userID == st.info[s].userID
    ensures s in Step(st, e).info && !((e.SubscribeTeam? || e.UnsubscribeTeam?) && e.conn == st.info[s].conn) ==>
              Step(st, e).teams.topics[s] == st.teams.topics[s]
  {
    if e.Connect? && e.conn !in st.listeners {
      ConnectFate(st, e.s, e.conn, e.userID, e.now, s);
    } else {
      StepKeeps(st, e);
    }
  }

  /** A client is inactive from its disconnect until it reconnects, and is subscribed by its own requests. */
  lemma ClientFollows<S>(st: State<S>, e: Event<S>, s: S)
    requires Inv(st) && Possible(st, e) && s in st.info && s in Step(st, e).info
    ensures s in Step(st, e).teams.topics
    ensures InactiveSince(e, st.info[s], Step(st, e).info[s])
    ensures Subscribes(e, st.info[s].conn, st.teams.topics[s], Step(st, e).teams.topics[s])
  {
    match e
    case Connect(conn, userID, n, now) =>
      if conn !in st.listeners {
        ConnectFate(st, n, conn, userID, now, s);
      }
    case SubscribeTeam(conn, t, _) =>
      assert st.info[s].conn == conn <==> conn in st.listeners && st.listeners[conn] == s;
    case UnsubscribeTeam(conn, t) =>
      assert st.info[s].conn == conn <==> conn in st.listeners && st.listeners[conn] == s;
      forall u ensures u in Without(st.teams.topics[s], t) <==> u in st.teams.topics[s] && u != t {
        InWithout(st.teams.topics[s], t, u);
      }
    case Disconnect(conn, _) =>
  }

  /** A client is registered by a connection that is not known yet, as active and without subscriptions. */
  lemma NewClient<S>(st: State<S>, e: Event<S>, s: S)
    requires Inv(st) && Possible(st, e) && s !in st.info
    ensures s in Step(st, e).info <==> e.Connect? && e.conn !in st.listeners && e.s == s
    ensures s in Step(st, e).info ==>
              && Step(st, e).info[s] == Info(e.conn, e.userID, 0)
              && s in Step(st, e).teams.topics && Step(st, e).teams.topics[s] == []
  {
    if e.Connect? && e.conn !in st.listeners {
      RegisteredKeeps(st, e.s, e.conn, e.userID);
      var next := Registered(st, e.s, e.conn, e.userID);
      ExpiredFate(next, At(next.users.byTopic, e.userID), e.now);
      StepKeeps(st, e);
    }
  }

  ghost predicate Run<S>(st: State<S>, es: seq<Event<S>>, end: State<S>)
    decreases |es|
  {
    if es == [] then end == st
    else Inv(st) && Possible(st, es[0]) && Run(Step(st, es[0]), es[1..], end)
  }

  function Start<S>(): State<S> {
    State(map[], map[], Index(map[], map[]), Index(map[], map[]))
  }

  /** In every run the connection, user and team indexes agree with each client's own data. */
  lemma {:induction false} RunKeeps<S>(st: State<S>, es: seq<Event<S>>, end: State<S>)
    requires Inv(st) && Run(st, es, end)
    ensures Inv(end)
    decreases |es|
  {
    if es == [] {
    } else {
      StepKeeps(st, es[0]);
      RunKeeps(Step(st, es[0]), es[1..], end);
    }
  }

  /** From the empty adapter on: the client of a connection is listed under its own user and no other,
      and under a team exactly if the team is in the client's own list. */
  lemma EveryRunAgrees<S>(es: seq<Event<S>>, end: State<S>, conn: string, topic: string)
    requires Run(Start<S>(), es, end) && conn in end.listeners
    ensures var s := end.listeners[conn];
            && s in end.info && end.info[s].conn == conn && s in end.teams.topics
            && (s in At(end.users.byTopic, topic) <==> topic == end.info[s].userID)
            && (s in At(end.teams.byTopic, topic) <==> topic in end.teams.topics[s])
            && NoRepeats(At(end.users.byTopic, topic)) && NoRepeats(At(end.teams.byTopic, topic))
  {
    RunKeeps(Start<S>(), es, end);
  }

  // ----- the adapter itself

  class Client {
    var inactiveAt: int
    const webConnID: string
    const userID: string
    var teams: seq<string>

    constructor (webConnID: string, userID: string)
      ensures this.webConnID == webConnID && this.userID == userID && inactiveAt == 0 && teams == []
    {
      this.webConnID, this.userID, inactiveAt, teams := webConnID, userID, 0, [];
    }
  }

  /** What is known of a client is what it says. */
  predicate Told(c: Client, info: Info, teams: seq<string>)
    reads c
  {
    info == Info(c.webConnID, c.userID, c.inactiveAt) && c.teams == teams
  }

  /** The clients with another connection. */
  function OtherConns(cs: seq<Client>, conn: string): seq<Client> {
    if cs == [] then []
    else (if cs[0].webConnID != conn then [cs[0]] else []) + OtherConns(cs[1..], conn)
  }

  lemma {:induction false} OtherConnsPush(cs: seq<Client>, conn: string, c: Client)
    ensures OtherConns(cs + [c], conn) == OtherConns(cs, conn) + if c.webConnID != conn then [c] else []
  {
    if cs == [] {
      assert cs + [c] == [c];
    } else {
      assert (cs + [c])[1..] == cs[1..] + [c];
      OtherConnsPush(cs[1..], conn, c);
    }
  }

  lemma {:induction false} OtherConnsWithout(cs: seq<Client>, c: Client)
    requires forall i :: 0 <= i < |cs| && cs[i].webConnID == c.webConnID ==> cs[i] == c
    ensures OtherConns(cs, c.webConnID) == Without(cs, c)
  {
    if cs == [] {
    } else {
      OtherConnsWithout(cs[1..], c);
    }
  }

  method FilterOutConn(cs: seq<Client>, conn: string) returns (r: seq<Client>)
    ensures r == OtherConns(cs, conn)
  {
    r := [];
    for i := 0 to |cs|
      invariant r == OtherConns(cs[..i], conn)
    {
      assert cs[..i + 1] == cs[..i] + [cs[i]];
      OtherConnsPush(cs[..i], conn, cs[i]);
      if cs[i].webConnID != conn {
        r := r + [cs[i]];
      }
    }
    assert cs[..|cs|] == cs;
  }

  /** Nobody else in these lists has the client's connection. */
  ghost predicate OneConn(lists: map<string, seq<Client>>, pac: Client) {
    forall t, i :: 0 <= i < |At(lists, t)| && At(lists, t)[i].webConnID == pac.webConnID ==> At(lists, t)[i] == pac
  }

  lemma WithoutOneConn(lists: map<string, seq<Client>>, pac: Client, t: string)
    requires OneConn(lists, pac)
    ensures OneConn(lists[t := Without(At(lists, t), pac)], pac)
  {
    var kept := Without(At(lists, t), pac);
    forall i | 0 <= i < |kept| ensures kept[i].webConnID == pac.webConnID ==> kept[i] == pac {
      assert kept[i] in kept;
      InWithout(At(lists, t), pac, kept[i]);
      assert kept[i] in At(lists, t);
    }
    var after := lists[t := kept];
    forall u, i | 0 <= i < |At(after, u)|
      ensures At(after, u)[i].webConnID == pac.webConnID ==> At(after, u)[i] == pac
    {
      assert At(after, u) == if u == t then kept else At(lists, u);
    }
  }

  class Adapter {
    var listeners: map<string, Client>
    var listenersByUserID: map<string, seq<Client>>
    var listenersByTeam: map<string, seq<Client>>
    ghost var st: State<Client>      // all of the above

    ghost predicate Valid()
      reads this, st.info.Keys
    {
      && listeners == st.listeners
      && listenersByUserID == st.users.byTopic
      && listenersByTeam == st.teams.byTopic
      && st.users.topics.Keys == st.info.Keys == st.teams.topics.Keys
      && forall c :: c in st.info ==> Told(c, st.info[c], st.teams.topics[c])
    }

    constructor ()
      ensures Valid() && st == Start<Client>()
    {
      listeners, listenersByUserID, listenersByTeam := map[], map[], map[];
      st := Start<Client>();
    }

    method AddListener(pac: Client)
      requires Valid() && pac !in st.info && pac.inactiveAt == 0 && pac.teams == []
      modifies this
      ensures Valid() && st == Registered(old(st), pac, pac.webConnID, pac.userID)
    {
      listeners := listeners[pac.webConnID := pac];
      listenersByUserID := listenersByUserID[pac.userID := At(listenersByUserID, pac.userID) + [pac]];
      st := Registered(st, pac, pac.webConnID, pac.userID);
    }

    method RemoveListenerFromTeam(pac: Client, teamID: string)
      requires Valid() && pac in st.info && OneConn(listenersByTeam, pac)
      modifies this, pac
      ensures Valid() && st == old(st).(teams := Unlink(old(st).teams, pac, teamID))
      ensures OneConn(listenersByTeam, pac)
    {
      ghost var clients := At(listenersByTeam, teamID);
      OtherConnsWithout(clients, pac);
      WithoutOneConn(listenersByTeam, pac, teamID);
      var newTeamListeners := FilterOutConn(At(listenersByTeam, teamID), pac.webConnID);
      listenersByTeam := listenersByTeam[teamID := newTeamListeners];
      pac.teams := Remove(pac.teams, teamID);
      st := st.(teams := Unlink(st.teams, pac, teamID));
    }

    method RemoveListenerFromTeams(pac: Client, teams: seq<string>)
      requires Valid() && pac in st.info && OneConn(listenersByTeam, pac)
      modifies this, pac
      ensures Valid() && st == old(st).(teams := UnlinkAll(old(st).teams, pac, teams))
    {
      ghost var before := st;
      for i := 0 to |teams|
        invariant Valid() && pac in st.info && st == before.(teams := st.teams) && OneConn(listenersByTeam, pac)
        invariant UnlinkAll(before.teams, pac, teams) == UnlinkAll(st.teams, pac, teams[i..])
      {
        assert teams[i..][1..] == teams[i + 1..];
        RemoveListenerFromTeam(pac, teams[i]);
      }
    }

    method RemoveListener(pac: Client)
      requires Valid() && pac in st.info && OneConn(listenersByTeam, pac) && OneConn(listenersByUserID, pac)
      modifies this, pac
      ensures Valid() && st == Removed(old(st), pac)
    {
      RemoveListenerFromTeams(pac, pac.teams);
      Forget(pac);
    }

    method Forget(pac: Client)
      requires Valid() && pac in st.info && OneConn(listenersByUserID, pac)
      modifies this
      ensures Valid() && st == Forgotten(old(st), pac)
    {
      OtherConnsWithout(At(listenersByUserID, pac.userID), pac);
      var newUserListeners := FilterOutConn(At(listenersByUserID, pac.userID), pac.webConnID);
      listenersByUserID := listenersByUserID[pac.userID := newUserListeners];
      listeners := listeners - {pac.webConnID};
      st := Forgotten(st, pac);
    }

    method SetInactiveAt(pac: Client, at: int)
      requires Valid() && pac in st.info
      modifies this, pac
      ensures Valid() && st == SetInactive(old(st), pac, at)
    {
      pac.inactiveAt := at;
      st := SetInactive(st, pac, at);
    }

    method Touch(webConnID: string, at: int)
      requires Valid() && Inv(st)
      modifies this, st.info.Keys
      ensures Valid() && st == Touched(old(st), webConnID, at)
    {
      if webConnID !in listeners {
        return;
      }
      SetInactiveAt(listeners[webConnID], at);
    }

    /** Of the registered clients only `pac` has its connection. */
    ghost method ConnIsUnique(pac: Client)
      requires Valid() && Inv(st) && pac in st.info
      ensures OneConn(listenersByTeam, pac) && OneConn(listenersByUserID, pac)
    {
      forall c | c in st.info && c.webConnID == pac.webConnID ensures c == pac {
        assert st.listeners[st.info[c].conn] == c && st.listeners[st.info[pac].conn] == pac;
      }
    }

    /** One client of the expiry loop. */
    method RemoveIfExpired(pac: Client, now: int)
      requires Valid() && Inv(st) && pac in st.info
      modifies this, pac
      ensures Valid() && st == if Stale(old(st).info[pac], now) then Removed(old(st), pac) else old(st)
    {
      if pac.inactiveAt != 0 && pac.inactiveAt + STALE_THRESHOLD <= now {
        ConnIsUnique(pac);
        RemoveListener(pac);
      }
    }

    method RemoveExpired(pacs: seq<Client>, now: int)
      requires Valid() && Inv(st) && NoRepeats(pacs) && forall i :: 0 <= i < |pacs| ==> pacs[i] in st.info
      modifies this, st.info.Keys
      ensures Valid() && st == Expired(old(st), pacs, now)
    {
      ghost var before := st;
      for i := 0 to |pacs|
        invariant Valid() && Inv(st) && st.info.Keys <= before.info.Keys
        invariant forall k :: i <= k < |pacs| ==> pacs[k] in st.info
        invariant Expired(before, pacs, now) == Expired(st, pacs[i..], now)
      {
        assert pacs[i..][0] == pacs[i] && pacs[i..][1..] == pacs[i + 1..];
        RemovedKeeps(st, pacs[i]);
        RemoveIfExpired(pacs[i], now);
      }
    }

    /** A connection opens.  A known one is only marked active again. */
    method OnWebSocketConnect(webConnID: string, userID: string, now: int) returns (ghost pac: Client)
      requires Valid() && Inv(st)
      modifies this, st.info.Keys
      ensures webConnID !in old(st).listeners ==> fresh(pac)
      ensures Possible(old(st), Connect(webConnID, userID, pac, now))
      ensures Valid() && st == Step(old(st), Connect(webConnID, userID, pac, now))
    {
      if webConnID in listeners {
        var existing := listeners[webConnID];
        pac := existing;
        SetInactiveAt(existing, 0);
        return;
      }
      var newPAC := new Client(webConnID, userID);
      pac := newPAC;
      RegisteredKeeps(st, newPAC, webConnID, userID);
      AddListener(newPAC);
      RemoveExpired(At(listenersByUserID, userID), now);
    }

    method OnWebSocketDisconnect(webConnID: string, now: int)
      requires Valid() && Inv(st)
      modifies this, st.info.Keys
      ensures Valid() && st == Step(old(st), Event<Client>.Disconnect(webConnID, now))
    {
      Touch(webConnID, now);
    }

    method SubscribeToTeam(webConnID: string, teamID: string, access: bool)
      requires Valid() && Inv(st)
      modifies this, st.info.Keys
      ensures Valid() && st == Step(old(st), Event<Client>.SubscribeTeam(webConnID, teamID, access))
    {
      if webConnID !in listeners {
        return;
      }
      if !access {
        return;
      }
      SubscribeListenerToTeam(listeners[webConnID], teamID);
    }

    method SubscribeListenerToTeam(pac: Client, teamID: string)
      requires Valid() && pac in st.info
      modifies this, pac
      ensures Valid()
      ensures st == if teamID in old(st).teams.topics[pac] then old(st)
                    else old(st).(teams := Link(old(st).teams, pac, teamID))
    {
      if teamID in pac.teams {
        return;
      }
      listenersByTeam := listenersByTeam[teamID := At(listenersByTeam, teamID) + [pac]];
      pac.teams := pac.teams + [teamID];
      st := st.(teams := Link(st.teams, pac, teamID));
    }

    method UnsubscribeFromTeam(webConnID: string, teamID: string)
      requires Valid() && Inv(st)
      modifies this, st.info.Keys
      ensures Valid() && st == Step(old(st), Event<Client>.UnsubscribeTeam(webConnID, teamID))
    {
      if webConnID !in listeners {
        return;
      }
      var pac := listeners[webConnID];
      if teamID !in pac.teams {
        return;
      }
      ConnIsUnique(pac);
      RemoveListenerFromTeam(pac, teamID);
    }

    /** The users with an active client subscribed to a team. */
    method ActiveUsers(teamID: string) returns (users: set<string>)
      requires Valid() && Inv(st)
      ensures forall u :: u in users <==>
                exists c :: c in st.info && c.userID == u && c.inactiveAt == 0 && teamID in c.teams
    {
      users := {};
      var pacs := At(listenersByTeam, teamID);
      for i := 0 to |pacs|
        invariant forall u :: u in users <==> exists k :: 0 <= k < i && pacs[k].userID == u && pacs[k].inactiveAt == 0
      {
        if pacs[i].inactiveAt == 0 {
          users := users + {pacs[i].userID};
        }
      }
      forall u | exists c :: c in st.info && c.userID == u && c.inactiveAt == 0 && teamID in c.teams
        ensures u in users
      {
        var c :| c in st.info && c.userID == u && c.inactiveAt == 0 && teamID in c.teams;
        assert c in pacs;
      }
      forall u | u in users
        ensures exists c :: c in st.info && c.userID == u && c.inactiveAt == 0 && teamID in c.teams
      {
        var k :| 0 <= k < |pacs| && pacs[k].userID == u && pacs[k].inactiveAt == 0;
        assert pacs[k] in pacs && pacs[k] in st.info;
      }
    }

    /** The users to tell about a change to a board: the active users of the team who are members of
        the board and may see the team, and the users who must be told in any case.  Nobody is told
        when the members cannot be read. */
    method GetUserIDsForTeamAndBoard(teamID: string, stored: Stored, hasAccess: set<string>, ensureUserIDs: seq<string>)
      returns (userIDs: seq<string>)
      requires Valid() && Inv(st)
      ensures stored.Unreadable? ==> userIDs == []
      ensures stored.Members? ==> forall u :: u in userIDs <==>
                u in ensureUserIDs || (u in stored.userIDs && u in hasAccess && ActiveOn(u, teamID))
      ensures stored.Members? && (NoRepeats(stored.userIDs) || ensureUserIDs != []) ==> NoRepeats(userIDs)
    {
      var userMap := ActiveUsers(teamID);
      userIDs := [];
      if stored.Unreadable? {
        return;
      }
      userIDs := Intersection(stored.userIDs, userMap * hasAccess);
      if |ensureUserIDs| == 0 {
        return;
      }
      userIDs := Enumerate(set id | id in userIDs + ensureUserIDs);
    }

    method Intersection(members: seq<string>, users: set<string>) returns (userIDs: seq<string>)
      ensures forall u :: u in userIDs <==> u in members && u in users
      ensures NoRepeats(members) ==> NoRepeats(userIDs)
    {
      userIDs := [];
      for i := 0 to |members|
        invariant forall u :: u in userIDs <==> u in members[..i] && u in users
        invariant NoRepeats(members) ==> NoRepeats(userIDs)
      {
        assert members[..i + 1] == members[..i] + [members[i]];
        if members[i] in users {
          assert NoRepeats(members) ==> members[i] !in members[..i];
          userIDs := userIDs + [members[i]];
        }
      }
      assert members[..|members|] == members;
    }

    method Enumerate(ids: set<string>) returns (r: seq<string>)
      ensures NoRepeats(r) && forall u :: u in r <==> u in ids
    {
      r := [];
      var todo := ids;
      while todo != {}
        invariant todo <= ids && NoRepeats(r)
        invariant forall u :: u in r <==> u in ids - todo
        decreases todo
      {
        var id :| id in todo;
        assert id !in r;
        todo := todo - {id};
        PushNoRepeats(r, id);
        r := r + [id];
      }
    }

    ghost predicate ActiveOn(userID: string, teamID: string)
      reads this, st.info.Keys
    {
      exists c :: c in st.info && c.userID == userID && c.inactiveAt == 0 && teamID in c.teams
    }
  }
}
