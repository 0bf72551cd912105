/** The callback queue of the server: a bounded channel, a pool of worker goroutines, a `done`
    signal, a channel of exit tokens, and a Shutdown call that waits for the pool and then drains
    the channel.

    The goroutines interleave, so the queue is modelled as a state machine.  An `Event` is one
    atomic action of some goroutine together with every choice the scheduler makes for it (which
    worker, which ready case of a `select`).  A run is a sequence of enabled events, so a lemma
    about every run is a lemma about every interleaving. */
module CallbackQueue {

  import opened Sequences

  datatype Callback = Callback(number: nat)

  datatype Config = Config(queueSize: nat, poolSize: nat)

  /** A pool goroutine: at its `select`, running a callback, past the loop with its exit token
      not yet sent, or gone. */
  datatype Worker = Idle | Running(f: Callback) | Exiting | Exited

  /** The Shutdown call that wins the compare-and-swap on `idone`. */
  datatype Stopper =
    | NotCalled
    | Flagged                       // won the flag, has not closed `done` yet
    | Waiting                       // collecting exit tokens
    | Draining                      // at the final select
    | DrainRunning(f: Callback)     // running a drained callback
    | Returned(ok: bool)

  datatype State = State(
    queue: seq<Callback>,           // the channel's buffer
    blocked: seq<Callback>,         // senders parked on the channel, first come first served
    passed: multiset<Callback>,     // Enqueue calls past the flag check that have not sent yet
    workers: seq<Worker>,
    alive: seq<nat>,                // exit tokens in the `alive` channel
    taken: nat,                     // exit tokens the winner has received
    idone: bool,
    done: bool,
    ctxDone: bool,                  // the winner's context has expired
    stopper: Stopper,
    repeats: nat,                   // Shutdown calls that lost the flag and returned true
    // history
    accepted: seq<Callback>,        // callbacks whose Enqueue passed the flag check
    sent: seq<Callback>,            // callbacks that entered the channel, in order
    started: seq<Callback>,         // callbacks received, in order
    finished: seq<Callback>)        // callbacks that returned or panicked, in order

  datatype Event =
    // Enqueue callers
    | CallEnqueue(f: Callback)
    | TrySend(f: Callback)
    | HandOff(f: Callback, w: nat)
    // workers
    | Receive(w: nat)
    | Finish(w: nat)
    | Quit(w: nat)
    | SendToken(w: nat)
    // Shutdown callers
    | CallShutdown
    | CloseDone
    | TakeToken
    | EndWait
    | DrainReceive
    | DrainFinish
    | DrainEmpty
    | Timeout
    // the context
    | Expire

  function Init(c: Config): State {
    State([], [], multiset{}, seq(c.poolSize, i => Idle), [], 0, false, false, false, NotCalled, 0, [], [], [], [])
  }

  /** A receive on the channel is ready. */
  predicate Ready(s: State) {
    s.queue != [] || s.blocked != []
  }

  /** The callback a ready receive yields. */
  function Head(s: State): Callback
    requires Ready(s)
  {
    if s.queue != [] then s.queue[0] else s.blocked[0]
  }

  function First(b: seq<Callback>): seq<Callback> {
    if b == [] then [] else [b[0]]
  }

  function Rest(b: seq<Callback>): seq<Callback> {
    if b == [] then [] else b[1..]
  }

  /** The state after a receive: the head leaves, and the first parked sender, if any, completes. */
  function Recv(s: State): State
    requires Ready(s)
  {
    s.(started := s.started + [Head(s)],
       queue := if s.queue == [] then [] else s.queue[1..] + First(s.blocked),
       blocked := Rest(s.blocked),
       sent := s.sent + First(s.blocked))
  }

  predicate At(s: State, w: nat, p: Worker) {
    w < |s.workers| && s.workers[w] == p
  }

  predicate Enabled(c: Config, s: State, e: Event) {
    match e
    case CallEnqueue(f) => true
    case TrySend(f) => f in s.passed
    case HandOff(f, w) => f in s.passed && c.queueSize == 0 && s.blocked == [] && At(s, w, Idle)
    case Receive(w) => At(s, w, Idle) && Ready(s)
    case Finish(w) => w < |s.workers| && s.workers[w].Running?
    case Quit(w) => At(s, w, Idle) && s.done
    case SendToken(w) => At(s, w, Exiting) && |s.alive| < c.poolSize
    case CallShutdown => true
    case CloseDone => s.stopper == Flagged
    case TakeToken => s.stopper == Waiting && s.taken < c.poolSize && s.alive != []
    case EndWait => s.stopper == Waiting && s.taken >= c.poolSize
    case DrainReceive => s.stopper == Draining && Ready(s)
    case DrainFinish => s.stopper.DrainRunning?
    case DrainEmpty => s.stopper == Draining && !Ready(s) && !s.ctxDone
    case Timeout => s.ctxDone && (s.stopper == Draining || (s.stopper == Waiting && s.taken < c.poolSize))
    case Expire => !s.ctxDone
  }

  function Fire(c: Config, s: State, e: Event): State
    requires Enabled(c, s, e)
  {
    match e
    case CallEnqueue(f) =>
      if s.idone then s
      else s.(passed := s.passed + multiset{f}, accepted := s.accepted + [f])
    case TrySend(f) =>
      if |s.queue| < c.queueSize then
        s.(passed := s.passed - multiset{f}, queue := s.queue + [f], sent := s.sent + [f])
      else
        s.(passed := s.passed - multiset{f}, blocked := s.blocked + [f])
    case HandOff(f, w) =>
      s.(passed := s.passed - multiset{f}, sent := s.sent + [f], started := s.started + [f],
         workers := s.workers[w := Running(f)])
    case Receive(w) => Recv(s).(workers := s.workers[w := Running(Head(s))])
    case Finish(w) => s.(workers := s.workers[w := Idle], finished := s.finished + [s.workers[w].f])
    case Quit(w) => s.(workers := s.workers[w := Exiting])
    case SendToken(w) => s.(workers := s.workers[w := Exited], alive := s.alive + [w])
    case CallShutdown =>
      if s.idone then s.(repeats := s.repeats + 1)
      else s.(idone := true, stopper := Flagged)
    case CloseDone => s.(done := true, stopper := Waiting)
    case TakeToken => s.(alive := s.alive[1..], taken := s.taken + 1)
    case EndWait => s.(stopper := Draining)
    case DrainReceive => Recv(s).(stopper := DrainRunning(Head(s)))
    case DrainFinish => s.(stopper := Draining, finished := s.finished + [s.stopper.f])
    case DrainEmpty => s.(stopper := Returned(true))
    case Timeout => s.(stopper := Returned(false))
    case Expire => s.(ctxDone := true)
  }

  /** The state reached from `s` by the events `es`, if each is enabled in its turn. */
  function Run(c: Config, s: State, es: seq<Event>): Option<State>
    decreases |es|
  {
    if es == [] then Some(s)
    else if Enabled(c, s, es[0]) then Run(c, Fire(c, s, es[0]), es[1..])
    else None
  }

  ghost predicate Reachable(c: Config, s: State) {
    exists es :: Run(c, Init(c), es) == Some(s)
  }

  // ----- what every run keeps

  function Runs(p: Worker, f: Callback): nat {
    if p == Running(f) then 1 else 0
  }

  function RunningIn(ws: seq<Worker>, f: Callback): nat {
    if ws == [] then 0 else Runs(ws[0], f) + RunningIn(ws[1..], f)
  }

  function IsExited(p: Worker): nat {
    if p.Exited? then 1 else 0
  }

  function ExitedIn(ws: seq<Worker>): nat {
    if ws == [] then 0 else IsExited(ws[0]) + ExitedIn(ws[1..])
  }

  /** How many runs of `f` have started and not finished. */
  function InFlight(s: State, f: Callback): nat {
    RunningIn(s.workers, f) + if s.stopper == DrainRunning(f) then 1 else 0
  }

  /** With at most one worker, the callback in flight, if any. */
  function OnlyInFlight(s: State): seq<Callback> {
    if |s.workers| == 1 && s.workers[0].Running? then [s.workers[0].f]
    else if s.stopper.DrainRunning? then [s.stopper.f]
    else []
  }

  predicate PoolGone(s: State) {
    forall w :: 0 <= w < |s.workers| ==> s.workers[w] == Exited
  }

  /** The channel keeps Go's rules, and callbacks leave it in the order they entered. */
  predicate FifoInv(c: Config, s: State) {
    && |s.queue| <= c.queueSize
    && (s.blocked != [] ==> |s.queue| == c.queueSize)
    && s.sent == s.started + s.queue
  }

  /** Every accepted callback is in the channel's history, parked, or about to be sent. */
  predicate AcceptedInv(s: State, f: Callback) {
    Times(s.accepted, f) == Times(s.sent, f) + Times(s.blocked, f) + s.passed[f]
  }

  /** Every started callback has finished or is in flight. */
  predicate StartedInv(s: State, f: Callback) {
    Times(s.started, f) == Times(s.finished, f) + InFlight(s, f)
  }

  /** The shutdown protocol: flags, exit tokens and the phases of the winning call. */
  predicate StopInv(c: Config, s: State) {
    && |s.workers| == c.poolSize
    && s.idone == (s.stopper != NotCalled)
    && s.done == (s.stopper != NotCalled && s.stopper != Flagged)
    && (!s.done ==> forall w :: 0 <= w < |s.workers| ==> s.workers[w].Idle? || s.workers[w].Running?)
    && ExitedIn(s.workers) == |s.alive| + s.taken
    && (s.stopper.Draining? || s.stopper.DrainRunning? || s.stopper == Returned(true) ==> s.taken == c.poolSize)
    && (s.stopper == Returned(false) ==> s.ctxDone)
  }

  predicate OrderInv(c: Config, s: State) {
    c.poolSize <= 1 ==> s.started == s.finished + OnlyInFlight(s)
  }

  ghost predicate Inv(c: Config, s: State) {
    && FifoInv(c, s)
    && StopInv(c, s)
    && OrderInv(c, s)
    && (forall f :: AcceptedInv(s, f))
    && (forall f :: StartedInv(s, f))
  }

  lemma {:induction false} RunningStep(ws: seq<Worker>, w: nat, p: Worker, f: Callback)
    requires w < |ws|
    ensures RunningIn(ws[w := p], f) + Runs(ws[w], f) == RunningIn(ws, f) + Runs(p, f)
  {
    if w == 0 {
      assert ws[w := p][1..] == ws[1..];
    } else {
      assert ws[w := p][1..] == ws[1..][w - 1 := p];
      RunningStep(ws[1..], w - 1, p, f);
    }
  }

  lemma {:induction false} ExitedStep(ws: seq<Worker>, w: nat, p: Worker)
    requires w < |ws|
    ensures ExitedIn(ws[w := p]) + IsExited(ws[w]) == ExitedIn(ws) + IsExited(p)
  {
    if w == 0 {
      assert ws[w := p][1..] == ws[1..];
    } else {
      assert ws[w := p][1..] == ws[1..][w - 1 := p];
      ExitedStep(ws[1..], w - 1, p);
    }
  }

  lemma {:induction false} ExitedBound(ws: seq<Worker>)
    ensures ExitedIn(ws) <= |ws|
    ensures ExitedIn(ws) == |ws| <==> forall w :: 0 <= w < |ws| ==> ws[w] == Exited
    ensures ExitedIn(ws) == |ws| ==> forall f :: RunningIn(ws, f) == 0
  {
    if ws == [] {
    } else {
      ExitedBound(ws[1..]);
      if forall w :: 0 <= w < |ws| ==> ws[w] == Exited {
        assert forall w :: 0 <= w < |ws[1..]| ==> ws[1..][w] == ws[w + 1];
      }
      if ExitedIn(ws) == |ws| {
        assert forall w :: 1 <= w < |ws| ==> ws[w] == ws[1..][w - 1];
      }
    }
  }

  lemma {:induction false} AllIdle(n: nat)
    ensures var ws := seq(n, i => Idle); ExitedIn(ws) == 0 && forall f :: RunningIn(ws, f) == 0
  {
    if n == 0 {
    } else {
      var ws := seq(n, i => Idle);
      AllIdle(n - 1);
      assert ws[1..] == seq(n - 1, i => Idle);
    }
  }

  lemma {:induction false} InitInv(c: Config)
    ensures Inv(c, Init(c))
  {
    AllIdle(c.poolSize);
  }

  lemma RecvFifo(c: Config, s: State)
    requires FifoInv(c, s) && Ready(s)
    ensures FifoInv(c, Recv(s))
  {
    var t := Recv(s);
    if s.queue != [] {
      assert s.queue == [s.queue[0]] + s.queue[1..];
      assert t.started + t.queue == (s.started + s.queue) + First(s.blocked);
    }
  }

  lemma StepFifo(c: Config, s: State, e: Event)
    requires FifoInv(c, s) && Enabled(c, s, e)
    ensures FifoInv(c, Fire(c, s, e))
  {
    match e
    case TrySend(f) =>
      assert (s.started + s.queue) + [f] == s.started + (s.queue + [f]);
    case HandOff(f, w) =>
    case Receive(w) => RecvFifo(c, s);
    case DrainReceive => RecvFifo(c, s);
    case _ =>
  }

  lemma SendAccepted(c: Config, s: State, e: Event, f: Callback)
    requires AcceptedInv(s, f) && Enabled(c, s, e) && e.TrySend?
    ensures AcceptedInv(Fire(c, s, e), f)
  {
    if |s.queue| < c.queueSize {
      TimesJoin(s.sent, [e.f], f);
      assert AcceptedInv(Fire(c, s, e), f);
    } else {
      TimesJoin(s.blocked, [e.f], f);
    }
  }

  lemma StepAccepted(c: Config, s: State, e: Event, f: Callback)
    requires AcceptedInv(s, f) && Enabled(c, s, e)
    ensures AcceptedInv(Fire(c, s, e), f)
  {
    if e.CallEnqueue? {
      TimesJoin(s.accepted, [e.f], f);
    } else if e.HandOff? {
      TimesJoin(s.sent, [e.f], f);
    } else if e.TrySend? {
      SendAccepted(c, s, e, f);
    } else if e.Receive? || e.DrainReceive? {
      TimesJoin(s.sent, First(s.blocked), f);
    }
  }

  lemma StartStarted(c: Config, s: State, e: Event, f: Callback)
    requires StartedInv(s, f) && Enabled(c, s, e) && (e.HandOff? || e.Receive? || e.DrainReceive?)
    ensures StartedInv(Fire(c, s, e), f)
  {
    var g, t := if e.HandOff? then e.f else Head(s), Fire(c, s, e);
    TimesJoin(s.started, [g], f);
    assert Times([g], f) == if g == f then 1 else 0;
    if e.DrainReceive? {
      assert t.stopper == DrainRunning(g) && t.workers == s.workers;
    } else {
      RunningStep(s.workers, e.w, Running(g), f);
      assert t.workers == s.workers[e.w := Running(g)] && s.workers[e.w] == Idle;
    }
  }

  lemma LeaveStarted(c: Config, s: State, e: Event, f: Callback)
    requires StartedInv(s, f) && Enabled(c, s, e) && (e.Quit? || e.SendToken?)
    ensures StartedInv(Fire(c, s, e), f)
  {
    RunningStep(s.workers, e.w, Fire(c, s, e).workers[e.w], f);
  }

  lemma FinishStarted(c: Config, s: State, e: Event, f: Callback)
    requires StartedInv(s, f) && Enabled(c, s, e) && e.Finish?
    ensures StartedInv(Fire(c, s, e), f)
  {
    RunningStep(s.workers, e.w, Idle, f);
    TimesJoin(s.finished, [s.workers[e.w].f], f);
  }

  lemma StepStarted(c: Config, s: State, e: Event, f: Callback)
    requires StartedInv(s, f) && StopInv(c, s) && Enabled(c, s, e)
    ensures StartedInv(Fire(c, s, e), f)
  {
    if e.HandOff? || e.Receive? || e.DrainReceive? {
      StartStarted(c, s, e, f);
    } else if e.Finish? {
      FinishStarted(c, s, e, f);
    } else if e.Quit? || e.SendToken? {
      LeaveStarted(c, s, e, f);
    } else if e.DrainFinish? {
      TimesJoin(s.finished, [s.stopper.f], f);
    }
  }

  lemma WorkerStop(c: Config, s: State, e: Event)
    requires StopInv(c, s) && Enabled(c, s, e)
    requires e.HandOff? || e.Receive? || e.Finish? || e.Quit? || e.SendToken?
    ensures StopInv(c, Fire(c, s, e))
  {
    ExitedStep(s.workers, e.w, Fire(c, s, e).workers[e.w]);
  }

  lemma StepStop(c: Config, s: State, e: Event)
    requires StopInv(c, s) && Enabled(c, s, e)
    ensures StopInv(c, Fire(c, s, e))
  {
    if e.HandOff? || e.Receive? || e.Finish? || e.Quit? || e.SendToken? {
      WorkerStop(c, s, e);
    } else {
      ExitedBound(s.workers);
    }
  }

  lemma WorkerOrder(c: Config, s: State, e: Event)
    requires OrderInv(c, s) && StopInv(c, s) && Enabled(c, s, e)
    requires e.HandOff? || e.Receive? || e.Finish?
    ensures OrderInv(c, Fire(c, s, e))
  {
    ExitedBound(s.workers);
    assert !s.stopper.DrainRunning?;
    if c.poolSize <= 1 {
      assert e.w == 0;
      assert OnlyInFlight(s) == if e.Finish? then [s.workers[0].f] else [];
    }
  }

  lemma StepOrder(c: Config, s: State, e: Event)
    requires OrderInv(c, s) && StopInv(c, s) && Enabled(c, s, e)
    ensures OrderInv(c, Fire(c, s, e))
  {
    if e.HandOff? || e.Receive? || e.Finish? {
      WorkerOrder(c, s, e);
    } else if e.DrainReceive? || e.DrainFinish? {
      ExitedBound(s.workers);
      assert c.poolSize == 1 ==> s.workers[0] == Exited;
    }
  }

  lemma StepInv(c: Config, s: State, e: Event)
    requires Inv(c, s) && Enabled(c, s, e)
    ensures Inv(c, Fire(c, s, e))
  {
    StepFifo(c, s, e);
    StepStop(c, s, e);
    StepOrder(c, s, e);
    forall f ensures AcceptedInv(Fire(c, s, e), f) { StepAccepted(c, s, e, f); }
    forall f ensures StartedInv(Fire(c, s, e), f) { StepStarted(c, s, e, f); }
  }

  lemma {:induction false} RunInv(c: Config, s: State, es: seq<Event>, t: State)
    requires Inv(c, s) && Run(c, s, es) == Some(t)
    ensures Inv(c, t)
    decreases |es|
  {
    if es == [] {
    } else {
      StepInv(c, s, es[0]);
      RunInv(c, Fire(c, s, es[0]), es[1..], t);
    }
  }

  lemma ReachableInv(c: Config, t: State)
    requires Reachable(c, t)
    ensures Inv(c, t)
  {
    var es :| Run(c, Init(c), es) == Some(t);
    InitInv(c);
    RunInv(c, Init(c), es, t);
  }

  // ----- the promises of the queue

  /** In every run the callbacks sent are, in send order, the started ones in start order followed
      by the queued ones; a started callback has finished or is in flight; and one worker at most
      finishes callbacks in the order they were sent. */
  lemma CallbacksConserved(c: Config, t: State)
    requires Reachable(c, t)
    ensures t.sent == t.started + t.queue
    ensures forall f :: Times(t.accepted, f) == Times(t.sent, f) + Times(t.blocked, f) + t.passed[f]
    ensures forall f :: Times(t.started, f) == Times(t.finished, f) + InFlight(t, f)
    ensures c.poolSize <= 1 ==> t.finished <= t.sent && t.started == t.finished + OnlyInFlight(t)
  {
    ReachableInv(c, t);
    forall f ensures Times(t.accepted, f) == Times(t.sent, f) + Times(t.blocked, f) + t.passed[f] {
      assert AcceptedInv(t, f);
    }
    forall f ensures Times(t.started, f) == Times(t.finished, f) + InFlight(t, f) {
      assert StartedInv(t, f);
    }
  }

  /** A worker leaving its loop always finds room for its exit token. */
  lemma ExitTokenNeverBlocks(c: Config, t: State, w: nat)
    requires Reachable(c, t) && At(t, w, Exiting)
    ensures Enabled(c, t, SendToken(w))
  {
    ReachableInv(c, t);
    ExitedBound(t.workers);
  }

  /** What holds once the winning Shutdown call is past its wait: the pool is gone for good. */
  lemma PoolGoneWhenDraining(c: Config, t: State)
    requires Inv(c, t) && t.taken == c.poolSize
    ensures PoolGone(t) && t.alive == [] && forall f :: RunningIn(t.workers, f) == 0
  {
    ExitedBound(t.workers);
  }

  lemma EmptyPoll(c: Config, m: State)
    requires Inv(c, m) && Enabled(c, m, DrainEmpty)
    ensures m.started == m.sent
    ensures forall f :: Times(m.finished, f) == Times(m.sent, f)
    ensures forall f :: Times(m.accepted, f) == Times(m.sent, f) + m.passed[f]
  {
    assert m.started + [] == m.started;
    PoolGoneWhenDraining(c, m);
    forall f
      ensures Times(m.finished, f) == Times(m.sent, f)
      ensures Times(m.accepted, f) == Times(m.sent, f) + m.passed[f]
    {
      assert StartedInv(m, f) && AcceptedInv(m, f);
    }
  }

  lemma {:induction false} AfterReturn(c: Config, s: State, es: seq<Event>, t: State)
    requires Inv(c, s) && s.stopper == Returned(true) && Run(c, s, es) == Some(t)
    ensures t.stopper == Returned(true) && t.started == s.started && t.finished == s.finished &&
              t.accepted == s.accepted
    decreases |es|
  {
    if es == [] {
    } else {
      PoolGoneWhenDraining(c, s);
      StepInv(c, s, es[0]);
      AfterReturn(c, Fire(c, s, es[0]), es[1..], t);
    }
  }

  lemma {:induction false} RunSplit(c: Config, s: State, a: seq<Event>, b: seq<Event>, m: State)
    requires Run(c, s, a) == Some(m)
    ensures Run(c, s, a + b) == Run(c, m, b)
    decreases |a|
  {
    if a == [] {
      assert a + b == b;
    } else {
      assert (a + b)[1..] == a[1..] + b;
      RunSplit(c, Fire(c, s, a[0]), a[1..], b, m);
    }
  }

  /** Only an empty poll makes the winning call return true. */
  lemma EmptyPollReturns(c: Config, s: State, e: Event)
    requires Enabled(c, s, e) && s.stopper != Returned(true) && Fire(c, s, e).stopper == Returned(true)
    ensures e == DrainEmpty
  {
  }

  /** The final empty poll of a run in which the winner returned true: its place, and the state there. */
  lemma {:induction false} FinalPoll(c: Config, s: State, es: seq<Event>, t: State) returns (k: nat, m: State)
    requires Inv(c, s) && s.stopper != Returned(true)
    requires Run(c, s, es) == Some(t) && t.stopper == Returned(true)
    ensures k < |es| && es[k] == DrainEmpty
    ensures Run(c, s, es[..k]) == Some(m)
    ensures Inv(c, m) && Enabled(c, m, DrainEmpty)
    ensures Run(c, Fire(c, m, DrainEmpty), es[k + 1..]) == Some(t)
    decreases |es|
  {
    var e0 := es[0];
    var n := Fire(c, s, e0);
    StepInv(c, s, e0);
    if n.stopper == Returned(true) {
      EmptyPollReturns(c, s, e0);
      k, m := 0, s;
    } else {
      k, m := FinalPoll(c, n, es[1..], t);
      k := k + 1;
      assert es[1..][..k - 1] == es[..k][1..] && es[1..][k..] == es[k + 1..];
    }
  }

  /** If the winning Shutdown call has returned true then, for good, all workers have exited, no
      callback is running, and exactly the callbacks sent before its final empty poll have run. */
  lemma ShutdownTrue(c: Config, es: seq<Event>, t: State) returns (k: nat, m: State)
    requires Run(c, Init(c), es) == Some(t) && t.stopper == Returned(true)
    ensures k < |es| && es[k] == DrainEmpty
    ensures Run(c, Init(c), es[..k]) == Some(m)
    ensures !m.ctxDone
    ensures PoolGone(t) && forall f :: InFlight(t, f) == 0
    ensures t.started == m.sent && m.sent <= t.sent
    ensures t.queue == t.sent[|m.sent|..]
    ensures forall f :: Times(t.finished, f) == Times(m.sent, f)
  {
    InitInv(c);
    k, m := FinalPoll(c, Init(c), es, t);
    var n := Fire(c, m, DrainEmpty);
    EmptyPoll(c, m);
    StepInv(c, m, DrainEmpty);
    AfterReturn(c, n, es[k + 1..], t);
    RunInv(c, n, es[k + 1..], t);
    PoolGoneWhenDraining(c, t);
  }

  lemma SurplusIff(all: seq<Callback>, part: seq<Callback>, surplus: multiset<Callback>)
    requires forall f :: Times(all, f) == Times(part, f) + surplus[f]
    ensures (forall f :: Times(part, f) == Times(all, f)) <==> surplus == multiset{}
  {
    if surplus != multiset{} {
      var f :| f in surplus;
      assert Times(part, f) != Times(all, f);
    }
  }

  /** Which accepted callbacks are lost: every accepted callback has run, then and ever after, if
      and only if no Enqueue call was between its flag check and its send at the final empty poll. */
  lemma NothingLostIff(c: Config, m: State, es: seq<Event>, t: State)
    requires Reachable(c, m) && Enabled(c, m, DrainEmpty)
    requires Run(c, Fire(c, m, DrainEmpty), es) == Some(t)
    ensures (forall f :: Times(t.finished, f) == Times(t.accepted, f)) <==> m.passed == multiset{}
  {
    ReachableInv(c, m);
    StepInv(c, m, DrainEmpty);
    AfterReturn(c, Fire(c, m, DrainEmpty), es, t);
    EmptyPoll(c, m);
    SurplusIff(m.accepted, m.finished, m.passed);
  }

  // ----- the drain ends

  /** Callbacks that can still reach a receiver once the flag is set. */
  function Remaining(s: State): nat {
    |s.queue| + |s.blocked| + |s.passed|
  }

  lemma StepRemaining(c: Config, s: State, e: Event)
    requires Inv(c, s) && s.idone && Enabled(c, s, e)
    ensures var t := Fire(c, s, e);
            t.idone && |t.started| + Remaining(t) == |s.started| + Remaining(s)
  {
  }

  /** After the flag is set each receive takes one from a fixed supply: the queue length plus the
      senders already past the flag check. */
  lemma {:induction false} DrainSupply(c: Config, s: State, es: seq<Event>, t: State)
    requires Inv(c, s) && s.idone && Run(c, s, es) == Some(t)
    ensures |t.started| - |s.started| == Remaining(s) - Remaining(t)
    decreases |es|
  {
    if es == [] {
    } else {
      StepInv(c, s, es[0]);
      StepRemaining(c, s, es[0]);
      DrainSupply(c, Fire(c, s, es[0]), es[1..], t);
    }
  }

  function Effort(p: Worker): nat {
    match p case Idle => 2 case Running(_) => 3 case Exiting => 1 case Exited => 0
  }

  function PoolEffort(ws: seq<Worker>): nat {
    if ws == [] then 0 else Effort(ws[0]) + PoolEffort(ws[1..])
  }

  function StopEffort(p: Stopper): nat {
    match p
    case NotCalled => 4
    case Flagged => 4
    case Waiting => 3
    case Draining => 1
    case DrainRunning(_) => 2
    case Returned(_) => 0
  }

  /** An upper bound on the steps left after the flag is set. */
  function Rank(c: Config, s: State): int {
    4 * |s.passed| + 3 * |s.blocked| + 2 * |s.queue| + PoolEffort(s.workers)
    + (c.poolSize - s.taken) + StopEffort(s.stopper) + if s.ctxDone then 0 else 1
  }

  lemma {:induction false} EffortStep(ws: seq<Worker>, w: nat, p: Worker)
    requires w < |ws|
    ensures PoolEffort(ws[w := p]) + Effort(ws[w]) == PoolEffort(ws) + Effort(p)
  {
    if w == 0 {
      assert ws[w := p][1..] == ws[1..];
    } else {
      assert ws[w := p][1..] == ws[1..][w - 1 := p];
      EffortStep(ws[1..], w - 1, p);
    }
  }

  /** A new call that finds the flag set; every other event is a step of work already begun. */
  predicate NewCall(e: Event) {
    e.CallEnqueue? || e.CallShutdown?
  }

  lemma WorkerRank(c: Config, s: State, e: Event)
    requires Inv(c, s) && Enabled(c, s, e)
    requires e.HandOff? || e.Receive? || e.Finish? || e.Quit? || e.SendToken?
    ensures Rank(c, Fire(c, s, e)) < Rank(c, s)
  {
    EffortStep(s.workers, e.w, Fire(c, s, e).workers[e.w]);
  }

  lemma StepRank(c: Config, s: State, e: Event)
    requires Inv(c, s) && s.idone && Enabled(c, s, e)
    ensures var t := Fire(c, s, e);
            if NewCall(e) then Rank(c, t) == Rank(c, s) else Rank(c, t) < Rank(c, s)
  {
    if e.HandOff? || e.Receive? || e.Finish? || e.Quit? || e.SendToken? {
      WorkerRank(c, s, e);
    }
  }

  lemma RankNatural(c: Config, s: State)
    requires Inv(c, s)
    ensures Rank(c, s) >= 0
  {
    ExitedBound(s.workers);
  }

  function Steps(es: seq<Event>): nat {
    if es == [] then 0 else (if NewCall(es[0]) then 0 else 1) + Steps(es[1..])
  }

  lemma {:induction false} RunRank(c: Config, s: State, es: seq<Event>, t: State)
    requires Inv(c, s) && s.idone && Run(c, s, es) == Some(t)
    ensures Inv(c, t) && t.idone
    ensures Steps(es) + Rank(c, t) <= Rank(c, s)
    decreases |es|
  {
    if es == [] {
    } else {
      StepInv(c, s, es[0]);
      StepRank(c, s, es[0]);
      RunRank(c, Fire(c, s, es[0]), es[1..], t);
    }
  }

  /** Until the winner returns, some worker or the winner itself can move; no new call, no parked
      sender and no timeout is needed. */
  lemma ShutdownProgress(c: Config, s: State) returns (e: Event)
    requires Inv(c, s) && s.idone && !s.stopper.Returned?
    ensures Enabled(c, s, e) && !NewCall(e) && !e.TrySend?
    ensures !e.HandOff? && !e.Expire?
  {
    match s.stopper
    case Flagged => e := CloseDone;
    case Draining => e := if Ready(s) then DrainReceive else if s.ctxDone then Timeout else DrainEmpty;
    case DrainRunning(_) => e := DrainFinish;
    case Waiting =>
      ExitedBound(s.workers);
      if s.taken >= c.poolSize {
        e := EndWait;
      } else if s.alive != [] {
        e := TakeToken;
      } else {
        var w: nat :| w < |s.workers| && s.workers[w] != Exited;
        e := match s.workers[w] case Idle => Quit(w) case Running(_) => Finish(w) case _ => SendToken(w);
      }
  }

  /** No step of a worker or of the winner is left. */
  ghost predicate Ended(c: Config, t: State) {
    forall e :: Enabled(c, t, e) ==> NewCall(e) || e.TrySend? || e.HandOff? || e.Expire?
  }

  /** Shutdown always ends: from the flag on, a run holds at most `Rank` steps besides new calls,
      and a run that cannot be extended by a worker or by the winner has the winner returned. */
  lemma ShutdownEnds(c: Config, s: State, es: seq<Event>, t: State)
    requires Reachable(c, s) && s.idone && Run(c, s, es) == Some(t)
    ensures Steps(es) <= Rank(c, s)
    ensures Ended(c, t) ==> t.stopper.Returned?
  {
    ReachableInv(c, s);
    RunRank(c, s, es, t);
    RankNatural(c, t);
    if !t.stopper.Returned? {
      var e := ShutdownProgress(c, t);
    }
  }

  /** The context has expired exactly if it did so in the run. */
  lemma {:induction false} ExpiredIff(c: Config, s: State, es: seq<Event>, t: State)
    requires Run(c, s, es) == Some(t)
    ensures t.ctxDone <==> s.ctxDone || Expire in es
    decreases |es|
  {
    if es == [] {
    } else {
      ExpiredIff(c, Fire(c, s, es[0]), es[1..], t);
      assert es == [es[0]] + es[1..];
    }
  }

  /** Shutdown answers false only in a run in which its context expires.  So where it does not, and
      Shutdown is called, a run that has ended has the answer true. */
  lemma ShutdownFalse(c: Config, es: seq<Event>, t: State)
    requires Run(c, Init(c), es) == Some(t)
    ensures t.stopper == Returned(false) ==> Expire in es
    ensures t.idone && Ended(c, t) && Expire !in es ==> t.stopper == Returned(true)
  {
    InitInv(c);
    RunInv(c, Init(c), es, t);
    ExpiredIff(c, Init(c), es, t);
    if t.idone && !t.stopper.Returned? {
      var e := ShutdownProgress(c, t);
    }
  }

  ghost predicate Answers(c: Config, s: State, e: Event, ok: bool) {
    Enabled(c, s, e) && Fire(c, s, e).stopper == Returned(ok)
  }

  /** The winner can answer false now. */
  ghost predicate GivesUp(c: Config, s: State) {
    exists e :: Answers(c, s, e, false)
  }

  lemma TimeoutGivesUp(c: Config, s: State, e: Event)
    requires !s.stopper.Returned? && Answers(c, s, e, false)
    ensures e == Timeout
  {
  }

  /** With the context expired the winner can give up in its wait, while tokens are missing, and between
      drained callbacks, and nowhere else. */
  lemma GivesUpIff(c: Config, s: State)
    requires !s.stopper.Returned?
    ensures GivesUp(c, s) <==>
              s.ctxDone && (s.stopper == Draining || (s.stopper == Waiting && s.taken < c.poolSize))
  {
    if s.ctxDone && (s.stopper == Draining || (s.stopper == Waiting && s.taken < c.poolSize)) {
      assert Answers(c, s, Timeout, false);
    }
    if e :| Answers(c, s, e, false) {
      TimeoutGivesUp(c, s, e);
    }
  }

  /** An Enqueue call that finds the flag set is refused: from then on nothing more is accepted. */
  lemma {:induction false} FlagRefuses(c: Config, s: State, es: seq<Event>, t: State)
    requires s.idone && Run(c, s, es) == Some(t)
    ensures t.idone && t.accepted == s.accepted
    decreases |es|
  {
    if es == [] {
    } else {
      FlagRefuses(c, Fire(c, s, es[0]), es[1..], t);
    }
  }

  // ----- callbacks lost at the end

  /** In some run the Shutdown call made now wins and returns true, and an accepted callback has not run. */
  ghost predicate MayLose(c: Config, s: State) {
    exists es, t, f :: LosingRun(c, s, es, t, f)
  }

  ghost predicate LosingRun(c: Config, s: State, es: seq<Event>, t: State, f: Callback) {
    && es != [] && es[0] == CallShutdown && Run(c, s, es) == Some(t)
    && t.stopper == Returned(true) && Times(t.finished, f) < Times(t.accepted, f)
  }

  /** The callback of a losing run is lost for good. */
  lemma LostForGood(c: Config, s: State, es: seq<Event>, t: State, f: Callback, later: seq<Event>, u: State)
    requires Reachable(c, s) && LosingRun(c, s, es, t, f) && Run(c, t, later) == Some(u)
    ensures Times(u.finished, f) < Times(u.accepted, f)
  {
    ReachableInv(c, s);
    RunInv(c, s, es, t);
    AfterReturn(c, t, later, u);
  }

  /** Once the flag is set no further Enqueue call gets past its check. */
  lemma {:induction false} PassedFades(c: Config, s: State, es: seq<Event>, t: State)
    requires s.idone && s.passed == multiset{} && Run(c, s, es) == Some(t)
    ensures t.idone && t.passed == multiset{}
    decreases |es|
  {
    if es == [] {
    } else {
      PassedFades(c, Fire(c, s, es[0]), es[1..], t);
    }
  }

  /** A run after which the winning call has returned true, and the same senders are past the check. */
  ghost predicate QuietRun(c: Config, s: State, es: seq<Event>, t: State) {
    && Run(c, s, es) == Some(t) && Inv(c, t)
    && t.stopper == Returned(true) && t.passed == s.passed
  }

  /** From the flag on, the workers and the winner can finish on their own, with every Enqueue call left
      where it is. */
  lemma {:induction false} QuietEnd(c: Config, s: State)
    requires Inv(c, s) && s.idone && !s.ctxDone && !s.stopper.Returned?
    ensures exists es, t :: QuietRun(c, s, es, t)
    decreases Rank(c, s)
  {
    var e := ShutdownProgress(c, s);
    var n := Fire(c, s, e);
    StepInv(c, s, e);
    StepRank(c, s, e);
    RankNatural(c, n);
    if n.stopper.Returned? {
      assert [e][1..] == [];
      assert QuietRun(c, s, [e], n);
    } else {
      QuietEnd(c, n);
      var rest, t :| QuietRun(c, n, rest, t);
      var es := [e] + rest;
      assert es[1..] == rest;
      assert QuietRun(c, s, es, t);
    }
  }

  /** The Shutdown call made now may return true with an accepted callback never run exactly if some
      Enqueue call has passed its flag check and not sent yet. */
  lemma MayLoseIff(c: Config, s: State)
    requires Reachable(c, s) && !s.idone && !s.ctxDone
    ensures MayLose(c, s) <==> s.passed != multiset{}
  {
    ReachableInv(c, s);
    var n := Fire(c, s, CallShutdown);
    StepInv(c, s, CallShutdown);
    if s.passed != multiset{} {
      QuietEnd(c, n);
      var rest, t :| QuietRun(c, n, rest, t);
      var es := [CallShutdown] + rest;
      assert es[1..] == rest;
      var f :| f in s.passed;
      assert AcceptedInv(t, f) && StartedInv(t, f) && Times(t.started, f) <= Times(t.sent, f) by {
        TimesJoin(t.started, t.queue, f);
      }
      assert LosingRun(c, s, es, t, f);
    } else {
      forall es, t, f | es != [] && es[0] == CallShutdown && Run(c, s, es) == Some(t) && t.stopper == Returned(true)
        ensures Times(t.finished, f) == Times(t.accepted, f)
      {
        NothingLost(c, n, es[1..], t);
      }
    }
  }

  lemma NothingLost(c: Config, n: State, es: seq<Event>, t: State)
    requires Inv(c, n) && n.idone && n.passed == multiset{} && n.stopper != Returned(true)
    requires Run(c, n, es) == Some(t) && t.stopper == Returned(true)
    ensures forall f :: Times(t.finished, f) == Times(t.accepted, f)
  {
    var k, m := FinalPoll(c, n, es, t);
    PassedFades(c, n, es[..k], m);
    EmptyPoll(c, m);
    StepInv(c, m, DrainEmpty);
    AfterReturn(c, Fire(c, m, DrainEmpty), es[k + 1..], t);
  }

  /** With any sizes, a callback can be lost: one Enqueue call is enough. */
  lemma LossHappens(c: Config, f: Callback) returns (s: State)
    ensures Run(c, Init(c), [CallEnqueue(f)]) == Some(s)
    ensures !s.idone && MayLose(c, s)
  {
    s := Fire(c, Init(c), CallEnqueue(f));
    assert [CallEnqueue(f)][1..] == [];
    assert Run(c, Init(c), [CallEnqueue(f)]) == Some(s);
    assert f in s.passed;
    MayLoseIff(c, s);
  }

  // ----- repeated Shutdown calls

  /** A worker is running a callback although a Shutdown call has already returned true. */
  predicate ReturnedWhileBusy(s: State) {
    s.repeats > 0 && exists w :: 0 <= w < |s.workers| && s.workers[w].Running?
  }

  /** The callback in the hands of worker 0. */
  ghost predicate Busy(c: Config, es: seq<Event>, t: State, f: Callback) {
    Run(c, Init(c), es) == Some(t) && !t.idone && At(t, 0, Running(f))
  }

  lemma BusyRun(c: Config, f: Callback)
    requires c.poolSize > 0
    ensures exists es, t :: Busy(c, es, t, f)
  {
    var s := Fire(c, Init(c), CallEnqueue(f));
    if c.queueSize == 0 {
      var t := Fire(c, s, HandOff(f, 0));
      var es := [CallEnqueue(f), HandOff(f, 0)];
      assert es[1..] == [HandOff(f, 0)] && es[1..][1..] == [];
      assert Run(c, s, es[1..]) == Some(t);
      assert Busy(c, es, t, f);
    } else {
      var m := Fire(c, s, TrySend(f));
      var t := Fire(c, m, Receive(0));
      var es := [CallEnqueue(f), TrySend(f), Receive(0)];
      assert es[1..] == [TrySend(f), Receive(0)] && es[1..][1..] == [Receive(0)] && es[1..][1..][1..] == [];
      assert Run(c, m, es[1..][1..]) == Some(t);
      assert Run(c, s, es[1..]) == Some(t);
      assert Busy(c, es, t, f);
    }
  }

  /** "Returns true if the pool exited" fails for a Shutdown call that loses the flag: unless the
      pool is empty, it can return true while a worker is running a callback. */
  lemma RepeatedShutdownMayReturnEarly(c: Config)
    ensures (exists t :: Reachable(c, t) && ReturnedWhileBusy(t)) <==> c.poolSize > 0
  {
    if c.poolSize == 0 {
      forall t | Reachable(c, t) ensures !ReturnedWhileBusy(t) { ReachableInv(c, t); }
    } else {
      BusyRun(c, Callback(0));
      var es, s :| Busy(c, es, s, Callback(0));
      var stop := [CallShutdown, CallShutdown];
      assert stop[1..] == [CallShutdown];
      var t := Fire(c, Fire(c, s, CallShutdown), CallShutdown);
      assert Run(c, s, stop) == Some(t);
      RunSplit(c, Init(c), es, stop, s);
      assert Reachable(c, t) && ReturnedWhileBusy(t);
    }
  }
}
