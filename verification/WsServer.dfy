/** The standalone websocket server: sessions, their authentication, and the indexes that say which
    session listens to which team and which block. */
module WsServer {
  import opened Sequences
  import opened Subscriptions

  class Session {
    var userID: string
    var teams: seq<string>
    var blocks: seq<string>

    constructor (userID: string)
      ensures this.userID == userID && teams == [] && blocks == []
    {
      this.userID, teams, blocks := userID, [], [];
    }
  }

  /** The server's view of things: who is connected, who is who, and both indexes. */
  datatype State<S(==)> = State(listeners: set<S>, users: map<S, string>, teams: Index<S>, blocks: Index<S>)

  /** A message from a session, with what the services answer: the user a token belongs to, whether
      the user may see the team, whether the read token is good. */
  datatype Command =
    | Auth(userID: string)
    | SubscribeTeam(teamID: string, access: bool)
    | UnsubscribeTeam(teamID: string)
    | SubscribeBlocks(blockIDs: seq<string>, validToken: bool)
    | UnsubscribeBlocks(blockIDs: seq<string>, validToken: bool)

  datatype Event<S> = Connect(s: S, userID: string) | Message(s: S, command: Command) | Disconnect(s: S)

  /** Sessions and indexes agree; only connected sessions are subscribed to anything, and only
      authenticated ones to a team. */
  ghost predicate Inv<S>(st: State<S>) {
    && Agree(st.teams) && Agree(st.blocks)
    && st.teams.topics.Keys == st.users.Keys == st.blocks.topics.Keys
    && st.listeners <= st.users.Keys
    && (forall s :: s in st.users && s !in st.listeners ==> st.teams.topics[s] == [] && st.blocks.topics[s] == [])
    && (forall s :: s in st.users && st.teams.topics[s] != [] ==> st.users[s] != "")
  }

  function Connected<S(==)>(st: State<S>, s: S, userID: string): State<S> {
    State(st.listeners + {s}, st.users[s := userID], Join(st.teams, s), Join(st.blocks, s))
  }

  function Disconnected<S(==)>(st: State<S>, s: S): State<S>
    requires s in st.teams.topics && s in st.blocks.topics
  {
    st.(listeners := st.listeners - {s},
        teams := UnlinkAll(st.teams, s, st.teams.topics[s]),
        blocks := UnlinkAll(st.blocks, s, st.blocks.topics[s]))
  }

  function Handled<S(==)>(st: State<S>, s: S, c: Command): State<S>
    requires s in st.users && s in st.teams.topics && s in st.blocks.topics
  {
    match c
    case Auth(userID) => if st.users[s] == "" then st.(users := st.users[s := userID]) else st
    case SubscribeTeam(t, access) =>
      if st.users[s] != "" && access && t !in st.teams.topics[s] then st.(teams := Link(st.teams, s, t)) else st
    case UnsubscribeTeam(t) =>
      if st.users[s] != "" && t in st.teams.topics[s] then st.(teams := Unlink(st.teams, s, t)) else st
    case SubscribeBlocks(ids, valid) => if valid then st.(blocks := LinkAll(st.blocks, s, ids)) else st
    case UnsubscribeBlocks(ids, valid) => if valid then st.(blocks := UnlinkListed(st.blocks, s, ids)) else st
  }

  /** An event can happen: sessions are new when they connect, and only connected ones send messages.
      A disconnect may come again, since the handler removes the listener on its way out once more. */
  ghost predicate Possible<S>(st: State<S>, e: Event<S>) {
    match e
    case Connect(s, _) => s !in st.users
    case Message(s, _) => s in st.listeners
    case Disconnect(s) => s in st.users
  }

  function Step<S(==)>(st: State<S>, e: Event<S>): State<S>
    requires Inv(st) && Possible(st, e)
  {
    match e
    case Connect(s, userID) => Connected(st, s, userID)
    case Message(s, c) => Handled(st, s, c)
    case Disconnect(s) => Disconnected(st, s)
  }

  lemma DisconnectClears<S>(st: State<S>, s: S)
    requires Inv(st) && s in st.users
    ensures var t := Disconnected(st, s);
            && Inv(t) && s !in t.listeners
            && t.teams.topics == st.teams.topics[s := []] && t.blocks.topics == st.blocks.topics[s := []]
            && Disconnected(t, s) == t
  {
    UnlinkEverything(st.teams, s);
    UnlinkEverything(st.blocks, s);
  }

  lemma StepKeeps<S>(st: State<S>, e: Event<S>)
    requires Inv(st) && Possible(st, e)
    ensures Inv(Step(st, e))
  {
    match e
    case Connect(s, _) =>
      JoinAgrees(st.teams, s);
      JoinAgrees(st.blocks, s);
    case Disconnect(s) => DisconnectClears(st, s);
    case Message(s, SubscribeTeam(t, _)) =>
      if t !in st.teams.topics[s] {
        LinkAgrees(st.teams, s, t);
      }
    case Message(s, UnsubscribeTeam(t)) => UnlinkAgrees(st.teams, s, t);
    case Message(s, SubscribeBlocks(ids, _)) => LinkAllAgrees(st.blocks, s, ids);
    case Message(s, UnsubscribeBlocks(ids, _)) => UnlinkListedAgrees(st.blocks, s, ids);
    case Message(s, Auth(_)) =>
  }

  lemma StepKeepsUsers<S>(st: State<S>, e: Event<S>)
    requires Inv(st) && Possible(st, e)
    ensures forall s :: s in st.users && st.users[s] != "" ==>
              s in Step(st, e).users && Step(st, e).users[s] == st.users[s]
  {
  }

  /** The state after a run of events, if each is possible in its turn. */
  ghost predicate Run<S>(st: State<S>, es: seq<Event<S>>, end: State<S>)
    decreases |es|
  {
    if es == [] then end == st
    else Inv(st) && Possible(st, es[0]) && Run(Step(st, es[0]), es[1..], end)
  }

  function Start<S>(): State<S> {
    State({}, map[], Index(map[], map[]), Index(map[], map[]))
  }

  /** In every run the sessions and the indexes agree. */
  lemma {:induction false} RunKeeps<S>(st: State<S>, es: seq<Event<S>>, end: State<S>)
    requires Inv(st) && Run(st, es, end)
    ensures Inv(end)
    decreases |es|
  {
    if es == [] {
    } else {
      StepKeeps(st, es[0]);
      RunKeeps(Step(st, es[0]), es[1..], end);
    }
  }

  /** In every run an authenticated session keeps its user. */
  lemma {:induction false} RunKeepsUser<S>(st: State<S>, es: seq<Event<S>>, end: State<S>, s: S)
    requires Inv(st) && Run(st, es, end) && s in st.users && st.users[s] != ""
    ensures s in end.users && end.users[s] == st.users[s]
    decreases |es|
  {
    if es == [] {
    } else {
      StepKeeps(st, es[0]);
      StepKeepsUsers(st, es[0]);
      RunKeepsUser(Step(st, es[0]), es[1..], end, s);
    }
  }

  /** From the empty server on: a session is in a team's, or a block's, listener list exactly once if
      that topic is in the session's own list, and not at all otherwise; sessions listening to a team
      are authenticated, and sessions no longer connected listen to nothing. */
  lemma EveryRunAgrees<S>(es: seq<Event<S>>, end: State<S>, s: S, topic: string)
    requires Run(Start<S>(), es, end) && s in end.users
    ensures s in end.teams.topics && s in end.blocks.topics
    ensures Times(At(end.teams.byTopic, topic), s) == if topic in end.teams.topics[s] then 1 else 0
    ensures Times(At(end.blocks.byTopic, topic), s) == if topic in end.blocks.topics[s] then 1 else 0
    ensures topic in end.teams.topics[s] ==> end.users[s] != "" && s in end.listeners
    ensures topic in end.blocks.topics[s] ==> s in end.listeners
  {
    RunKeeps(Start<S>(), es, end);
    TimesIn(At(end.teams.byTopic, topic), s);
    TimesIn(At(end.blocks.byTopic, topic), s);
  }

  // ----- what the history of a run says

  /** The user that an event names for the session. */
  function NameIn<S(==)>(e: Event<S>, s: S): string {
    match e
    case Connect(x, userID) => if x == s then userID else ""
    case Message(x, Auth(userID)) => if x == s then userID else ""
    case _ => ""
  }

  /** The first user named for the session, on connecting or in an AUTH message. */
  function FirstName<S(==)>(es: seq<Event<S>>, s: S): string {
    if es == [] then ""
    else
      var before := FirstName(es[..|es| - 1], s);
      if before != "" then before else NameIn(es[|es| - 1], s)
  }

  ghost predicate ConnectedIn<S>(es: seq<Event<S>>, s: S) {
    exists k :: 0 <= k < |es| && es[k].Connect? && es[k].s == s
  }

  /** The session subscribes to the team with access to it. */
  predicate JoinsTeam<S(==)>(e: Event<S>, s: S, teamID: string) {
    e == Message(s, SubscribeTeam(teamID, true))
  }

  predicate QuitsTeam<S(==)>(e: Event<S>, s: S, teamID: string) {
    e == Message(s, UnsubscribeTeam(teamID)) || e == Disconnect(s)
  }

  /** The session subscribed to the team with access, after some event had named its user, and has neither
      unsubscribed nor disconnected since. */
  ghost predicate FollowsTeam<S>(es: seq<Event<S>>, s: S, teamID: string) {
    exists k :: 0 <= k < |es| && JoinsTeam(es[k], s, teamID) && FirstName(es[..k], s) != ""
      && forall j :: k < j < |es| ==> !QuitsTeam(es[j], s, teamID)
  }

  /** The session subscribes to the block with a valid token. */
  predicate JoinsBlock<S(==)>(e: Event<S>, s: S, blockID: string) {
    && e.Message? && e.s == s && e.command.SubscribeBlocks?
    && e.command.validToken && blockID in e.command.blockIDs
  }

  predicate QuitsBlock<S(==)>(e: Event<S>, s: S, blockID: string) {
    || e == Disconnect(s)
    || (&& e.Message? && e.s == s && e.command.UnsubscribeBlocks?
        && e.command.validToken && blockID in e.command.blockIDs)
  }

  ghost predicate FollowsBlock<S>(es: seq<Event<S>>, s: S, blockID: string) {
    exists k :: 0 <= k < |es| && JoinsBlock(es[k], s, blockID)
      && forall j :: k < j < |es| ==> !QuitsBlock(es[j], s, blockID)
  }

  lemma TeamNext<S>(es: seq<Event<S>>, e: Event<S>, s: S, teamID: string)
    ensures FollowsTeam(es + [e], s, teamID) <==>
              || (JoinsTeam(e, s, teamID) && FirstName(es, s) != "")
              || (FollowsTeam(es, s, teamID) && !QuitsTeam(e, s, teamID))
  {
    var all, n := es + [e], |es|;
    assert all[..n] == es;
    if JoinsTeam(e, s, teamID) && FirstName(es, s) != "" {
      assert JoinsTeam(all[n], s, teamID);
    }
    if FollowsTeam(es, s, teamID) && !QuitsTeam(e, s, teamID) {
      var k :| 0 <= k < n && JoinsTeam(es[k], s, teamID) && FirstName(es[..k], s) != ""
        && forall j :: k < j < n ==> !QuitsTeam(es[j], s, teamID);
      assert all[..k] == es[..k] && JoinsTeam(all[k], s, teamID);
    }
    if FollowsTeam(all, s, teamID) {
      var k :| 0 <= k <= n && JoinsTeam(all[k], s, teamID) && FirstName(all[..k], s) != ""
        && forall j :: k < j <= n ==> !QuitsTeam(all[j], s, teamID);
      if k < n {
        assert all[..k] == es[..k] && JoinsTeam(es[k], s, teamID) && !QuitsTeam(all[n], s, teamID);
        forall j | k < j < n ensures !QuitsTeam(es[j], s, teamID) { assert all[j] == es[j]; }
      }
    }
  }

  lemma BlockNext<S>(es: seq<Event<S>>, e: Event<S>, s: S, blockID: string)
    ensures FollowsBlock(es + [e], s, blockID) <==>
              JoinsBlock(e, s, blockID) || (FollowsBlock(es, s, blockID) && !QuitsBlock(e, s, blockID))
  {
    var all, n := es + [e], |es|;
    if JoinsBlock(e, s, blockID) {
      assert JoinsBlock(all[n], s, blockID);
    }
    if FollowsBlock(es, s, blockID) && !QuitsBlock(e, s, blockID) {
      var k :| 0 <= k < n && JoinsBlock(es[k], s, blockID) && forall j :: k < j < n ==> !QuitsBlock(es[j], s, blockID);
      assert JoinsBlock(all[k], s, blockID);
    }
    if FollowsBlock(all, s, blockID) {
      var k :| 0 <= k <= n && JoinsBlock(all[k], s, blockID)
        && forall j :: k < j <= n ==> !QuitsBlock(all[j], s, blockID);
      if k < n {
        assert JoinsBlock(es[k], s, blockID) && !QuitsBlock(all[n], s, blockID);
        forall j | k < j < n ensures !QuitsBlock(es[j], s, blockID) { assert all[j] == es[j]; }
      }
    }
  }

  /** The indexes know the sessions. */
  ghost predicate Keyed<S>(st: State<S>) {
    && st.teams.topics.Keys == st.users.Keys == st.blocks.topics.Keys
    && Agree(st.blocks)
  }

  /** What a message does to the teams a session follows. */
  lemma TeamHandled<S>(st: State<S>, x: S, c: Command, s: S, t: string)
    requires Keyed(st) && x in st.users
    ensures s in Handled(st, x, c).teams.topics && t in Handled(st, x, c).teams.topics[s] <==>
            && s in st.users
            && (|| (JoinsTeam(Message(x, c), s, t) && st.users[s] != "")
                || (t in st.teams.topics[s] && !(QuitsTeam(Message(x, c), s, t) && st.users[s] != "")))
  {
    if c.UnsubscribeTeam? && x == s {
      InWithout(st.teams.topics[s], c.teamID, t);
    }
  }

  /** What a message does to the blocks a session follows. */
  lemma BlockHandled<S>(st: State<S>, x: S, c: Command, s: S, b: string)
    requires Keyed(st) && x in st.users
    ensures s in Handled(st, x, c).blocks.topics && b in Handled(st, x, c).blocks.topics[s] <==>
            || JoinsBlock(Message(x, c), s, b)
            || (s in st.users && b in st.blocks.topics[s] && !QuitsBlock(Message(x, c), s, b))
  {
    match c
    case SubscribeBlocks(ids, _) => LinkAllAgrees(st.blocks, x, ids);
    case UnsubscribeBlocks(ids, _) => UnlinkListedAgrees(st.blocks, x, ids);
    case _ =>
  }

  /** What the history of a run says is what the server holds: who each session is, and what it follows. */
  ghost predicate AsTold<S>(es: seq<Event<S>>, st: State<S>, s: S) {
    && (s in st.users <==> ConnectedIn(es, s))
    && FirstName(es, s) == (if s in st.users then st.users[s] else "")
    && (forall t :: FollowsTeam(es, s, t) <==> s in st.teams.topics && t in st.teams.topics[s])
    && (forall b :: FollowsBlock(es, s, b) <==> s in st.blocks.topics && b in st.blocks.topics[s])
  }

  lemma ToldNames<S>(es: seq<Event<S>>, e: Event<S>, st: State<S>, s: S)
    requires Inv(st) && Possible(st, e) && AsTold(es, st, s)
    ensures var all, next := es + [e], Step(st, e);
            && (s in next.users <==> ConnectedIn(all, s))
            && FirstName(all, s) == if s in next.users then next.users[s] else ""
  {
    var all := es + [e];
    assert all[..|all| - 1] == es;
    if ConnectedIn(es, s) {
      var k :| 0 <= k < |es| && es[k].Connect? && es[k].s == s;
      assert all[k].Connect? && all[k].s == s;
    }
    if e.Connect? && e.s == s {
      assert all[|es|].Connect? && all[|es|].s == s;
    }
  }

  lemma ToldTeams<S>(es: seq<Event<S>>, e: Event<S>, st: State<S>, s: S, t: string)
    requires Inv(st) && Possible(st, e) && AsTold(es, st, s)
    ensures FollowsTeam(es + [e], s, t) <==>
            s in Step(st, e).teams.topics && t in Step(st, e).teams.topics[s]
  {
    TeamNext(es, e, s, t);
    match e
    case Connect(x, _) =>
    case Disconnect(x) => UnlinkEverything(st.teams, x);
    case Message(x, c) =>
      TeamHandled(st, x, c, s, t);
  }

  lemma ToldBlocks<S>(es: seq<Event<S>>, e: Event<S>, st: State<S>, s: S, b: string)
    requires Inv(st) && Possible(st, e) && AsTold(es, st, s)
    ensures FollowsBlock(es + [e], s, b) <==>
            s in Step(st, e).blocks.topics && b in Step(st, e).blocks.topics[s]
  {
    BlockNext(es, e, s, b);
    match e
    case Connect(x, _) =>
    case Disconnect(x) => UnlinkEverything(st.blocks, x);
    case Message(x, c) =>
      BlockHandled(st, x, c, s, b);
  }

  lemma ToldNext<S>(es: seq<Event<S>>, e: Event<S>, st: State<S>, s: S)
    requires Inv(st) && Possible(st, e) && AsTold(es, st, s)
    ensures AsTold(es + [e], Step(st, e), s)
  {
    ToldNames(es, e, st, s);
    forall t
      ensures FollowsTeam(es + [e], s, t) <==> s in Step(st, e).teams.topics && t in Step(st, e).teams.topics[s]
      ensures FollowsBlock(es + [e], s, t) <==> s in Step(st, e).blocks.topics && t in Step(st, e).blocks.topics[s]
    {
      ToldTeams(es, e, st, s, t);
      ToldBlocks(es, e, st, s, t);
    }
  }

  lemma {:induction false} ToldOn<S>(before: seq<Event<S>>, st: State<S>, es: seq<Event<S>>, end: State<S>, s: S)
    requires Inv(st) && Run(st, es, end) && AsTold(before, st, s)
    ensures AsTold(before + es, end, s)
    decreases |es|
  {
    if es == [] {
      assert before + es == before;
    } else {
      var upTo := before + [es[0]];
      assert upTo + es[1..] == before + es;
      StepKeeps(st, es[0]);
      ToldNext(before, es[0], st, s);
      ToldOn(upTo, Step(st, es[0]), es[1..], end, s);
    }
  }

  /** In every run: a session is known exactly if it connected; its user is the first one named for it; it is
      subscribed to a team exactly if it asked to be, with access, once its user was known, and has neither
      unsubscribed nor disconnected since; and to a block exactly if it asked with a valid token, and has
      neither unsubscribed so nor disconnected since. */
  lemma HistoryDecides<S>(es: seq<Event<S>>, end: State<S>, s: S)
    requires Run(Start<S>(), es, end)
    ensures AsTold(es, end, s)
  {
    ToldOn([], Start<S>(), es, end, s);
    assert [] + es == es;
  }

  // ----- the server itself

  /** What is known of a session is what it says. */
  predicate Told(s: Session, userID: string, teams: seq<string>, blocks: seq<string>)
    reads s
  {
    s.userID == userID && s.teams == teams && s.blocks == blocks
  }

  class Server {
    var listeners: set<Session>
    var listenersByTeam: map<string, seq<Session>>
    var listenersByBlock: map<string, seq<Session>>
    ghost var st: State<Session>     // all of the above, and every session that ever connected

    ghost predicate Valid()
      reads this, st.users.Keys
    {
      && listeners == st.listeners
      && listenersByTeam == st.teams.byTopic
      && listenersByBlock == st.blocks.byTopic
      && st.teams.topics.Keys == st.users.Keys == st.blocks.topics.Keys
      && forall s :: s in st.users ==> Told(s, st.users[s], st.teams.topics[s], st.blocks.topics[s])
    }

    constructor ()
      ensures Valid() && st == Start<Session>()
    {
      listeners, listenersByTeam, listenersByBlock := {}, map[], map[];
      st := Start<Session>();
    }

    method AddListener(listener: Session)
      requires Valid() && listener !in st.users && listener.teams == [] && listener.blocks == []
      modifies this
      ensures Valid() && st == Connected(old(st), listener, listener.userID)
    {
      listeners := listeners + {listener};
      st := Connected(st, listener, listener.userID);
    }

    method RemoveListenerFromTeam(listener: Session, teamID: string)
      requires Valid() && listener in st.users
      modifies this, listener
      ensures Valid() && st == old(st).(teams := Unlink(old(st).teams, listener, teamID))
    {
      var newTeamListeners := Remove(At(listenersByTeam, teamID), listener);
      listenersByTeam := listenersByTeam[teamID := newTeamListeners];
      listener.teams := Remove(listener.teams, teamID);
      st := st.(teams := Unlink(st.teams, listener, teamID));
    }

    method RemoveListenerFromBlock(listener: Session, blockID: string)
      requires Valid() && listener in st.users
      modifies this, listener
      ensures Valid() && st == old(st).(blocks := Unlink(old(st).blocks, listener, blockID))
    {
      var newBlockListeners := Remove(At(listenersByBlock, blockID), listener);
      listenersByBlock := listenersByBlock[blockID := newBlockListeners];
      listener.blocks := Remove(listener.blocks, blockID);
      st := st.(blocks := Unlink(st.blocks, listener, blockID));
    }

    method RemoveListenerFromTeams(listener: Session, teams: seq<string>)
      requires Valid() && listener in st.users
      modifies this, listener
      ensures Valid() && st == old(st).(teams := UnlinkAll(old(st).teams, listener, teams))
    {
      ghost var before := st;
      for i := 0 to |teams|
        invariant Valid() && listener in st.users && st == before.(teams := st.teams)
        invariant UnlinkAll(before.teams, listener, teams) == UnlinkAll(st.teams, listener, teams[i..])
      {
        assert teams[i..][1..] == teams[i + 1..];
        RemoveListenerFromTeam(listener, teams[i]);
      }
    }

    method RemoveListenerFromBlocks(listener: Session, blocks: seq<string>)
      requires Valid() && listener in st.users
      modifies this, listener
      ensures Valid() && st == old(st).(blocks := UnlinkAll(old(st).blocks, listener, blocks))
    {
      ghost var before := st;
      for i := 0 to |blocks|
        invariant Valid() && listener in st.users && st == before.(blocks := st.blocks)
        invariant UnlinkAll(before.blocks, listener, blocks) == UnlinkAll(st.blocks, listener, blocks[i..])
      {
        assert blocks[i..][1..] == blocks[i + 1..];
        RemoveListenerFromBlock(listener, blocks[i]);
      }
    }

    /** Takes the session out of everything.  The lists are those at the start of each round of
        removals. */
    method RemoveListener(listener: Session)
      requires Valid() && listener in st.users
      modifies this, listener
      ensures Valid() && st == Disconnected(old(st), listener)
    {
      RemoveListenerFromTeams(listener, listener.teams);
      RemoveListenerFromBlocks(listener, listener.blocks);
      listeners := listeners - {listener};
      st := st.(listeners := st.listeners - {listener});
    }

    method SubscribeListenerToTeam(listener: Session, teamID: string)
      requires Valid() && listener in st.users
      modifies this, listener
      ensures Valid()
      ensures st == if teamID in old(st).teams.topics[listener] then old(st)
                    else old(st).(teams := Link(old(st).teams, listener, teamID))
    {
      if teamID in listener.teams {
        return;
      }
      listenersByTeam := listenersByTeam[teamID := At(listenersByTeam, teamID) + [listener]];
      listener.teams := listener.teams + [teamID];
      st := st.(teams := Link(st.teams, listener, teamID));
    }

    method SubscribeListenerToBlock(listener: Session, blockID: string)
      requires Valid() && listener in st.users
      modifies this, listener
      ensures Valid()
      ensures st == if blockID in old(st).blocks.topics[listener] then old(st)
                    else old(st).(blocks := Link(old(st).blocks, listener, blockID))
    {
      if blockID in listener.blocks {
        return;
      }
      listenersByBlock := listenersByBlock[blockID := At(listenersByBlock, blockID) + [listener]];
      listener.blocks := listener.blocks + [blockID];
      st := st.(blocks := Link(st.blocks, listener, blockID));
    }

    method SubscribeListenerToBlocks(listener: Session, blockIDs: seq<string>)
      requires Valid() && listener in st.users
      modifies this, listener
      ensures Valid() && st == old(st).(blocks := LinkAll(old(st).blocks, listener, blockIDs))
    {
      ghost var before := st;
      for i := 0 to |blockIDs|
        invariant Valid() && listener in st.users && st == before.(blocks := st.blocks)
        invariant LinkAll(before.blocks, listener, blockIDs) == LinkAll(st.blocks, listener, blockIDs[i..])
      {
        assert blockIDs[i..][1..] == blockIDs[i + 1..];
        SubscribeListenerToBlock(listener, blockIDs[i]);
      }
    }

    method UnsubscribeListenerFromBlocks(listener: Session, blockIDs: seq<string>)
      requires Valid() && listener in st.users
      modifies this, listener
      ensures Valid() && st == old(st).(blocks := UnlinkListed(old(st).blocks, listener, blockIDs))
    {
      ghost var before := st;
      for i := 0 to |blockIDs|
        invariant Valid() && listener in st.users && st == before.(blocks := st.blocks)
        invariant UnlinkListed(before.blocks, listener, blockIDs) == UnlinkListed(st.blocks, listener, blockIDs[i..])
      {
        assert blockIDs[i..][1..] == blockIDs[i + 1..];
        if blockIDs[i] in listener.blocks {
          RemoveListenerFromBlock(listener, blockIDs[i]);
        }
      }
    }

    /** One message of a connected session. */
    method HandleMessage(session: Session, command: Command)
      requires Valid() && session in st.users
      modifies this, session
      ensures Valid() && st == Handled(old(st), session, command)
    {
      match command
      case Auth(userID) =>
        if session.userID == "" {
          session.userID := userID;
          st := st.(users := st.users[session := userID]);
        }
      case SubscribeBlocks(blockIDs, validToken) =>
        if validToken {
          SubscribeListenerToBlocks(session, blockIDs);
        }
      case UnsubscribeBlocks(blockIDs, validToken) =>
        if validToken {
          UnsubscribeListenerFromBlocks(session, blockIDs);
        }
      case SubscribeTeam(teamID, access) =>
        if session.userID != "" {
          if access {
            SubscribeListenerToTeam(session, teamID);
          }
        }
      case UnsubscribeTeam(teamID) =>
        if session.userID != "" {
          if teamID in session.teams {
            RemoveListenerFromTeam(session, teamID);
          }
        }
    }

    /** The sessions that listen to a team and belong to a member of a board or to a user who must be
        told anyway; none at all if the members cannot be read. */
    method GetListenersForTeamAndBoard(teamID: string, members: seq<string>, membersKnown: bool,
                                       ensureUsers: seq<string>)
      returns (r: seq<Session>)
      requires Valid() && Inv(st)
      ensures !membersKnown ==> r == []
      ensures membersKnown ==> NoRepeats(r)
      ensures membersKnown ==> forall s :: s in st.users ==>
                (s in r <==> teamID in s.teams && (s.userID in members || s.userID in ensureUsers))
      ensures forall i :: 0 <= i < |r| ==> r[i] in st.users
    {
      r := [];
      if !membersKnown {
        return;
      }
      var memberMap := set id | id in members + ensureUsers;
      var todo := memberMap;
      var team := At(listenersByTeam, teamID);
      while todo != {}
        invariant todo <= memberMap
        invariant NoRepeats(r) && forall i :: 0 <= i < |r| ==> r[i] in team && r[i].userID in memberMap - todo
        invariant forall k :: 0 <= k < |team| && team[k].userID in memberMap - todo ==> team[k] in r
        decreases todo
      {
        var memberID :| memberID in todo;
        todo := todo - {memberID};
        var more := ListenersOf(team, memberID);
        r := r + more;
      }
    }

    /** The sessions of one user in a list. */
    method ListenersOf(team: seq<Session>, userID: string) returns (r: seq<Session>)
      requires NoRepeats(team)
      ensures NoRepeats(r) && forall i :: 0 <= i < |r| ==> r[i] in team && r[i].userID == userID
      ensures forall k :: 0 <= k < |team| && team[k].userID == userID ==> team[k] in r
    {
      r := [];
      for k := 0 to |team|
        invariant NoRepeats(r) && forall i :: 0 <= i < |r| ==> r[i] in team[..k] && r[i].userID == userID
        invariant forall j :: 0 <= j < k && team[j].userID == userID ==> team[j] in r
      {
        assert team[..k + 1] == team[..k] + [team[k]];
        if team[k].userID == userID {
          r := r + [team[k]];
        }
      }
    }
  }
}
