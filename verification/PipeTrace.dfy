/** A pipe's worker in the foreground: which event its next atomic step is, and where a schedule of
    the other goroutines and of the SDK's answers takes the pipe.  PipeClient's loops are proved to
    compute exactly this trace. */
module PipeTrace {
  import M = Machine
  import opened DrainPipe
  import T = DrainPipeTheorems

  /** What surrounds one atomic step of the worker: the steps of the other goroutines before it, and
      the SDK's answer should the step be the return of a send. */
  datatype Turn = Turn(others: seq<Event>, reply: Reply)

  /** The worker's next event.  A dequeue of an empty open queue is a Dequeue(0), which changes nothing. */
  function OwnEvent(size: nat, s: State, reply: Reply): Event {
    match s.w.pc
    case Dequeuing => Dequeue(M.Min(|s.q.items|, size))
    case Sending => Send
    case Awaiting => Answer(reply)
    case _ => Load
  }

  /** The other goroutines' part of a turn. */
  function Others(p: Policy, s: State, es: seq<Event>): State {
    RunFrom(p, s, M.Theirs(IsWork, es))
  }

  function Turned(p: Policy, size: nat, s: State, turn: Turn): State {
    var m := Others(p, s, turn.others);
    Step(p, m, OwnEvent(size, m, turn.reply))
  }

  function Advance(p: Policy, size: nat): (State, Turn) -> State { (s, turn) => Turned(p, size, s, turn) }

  /** The pipe after k atomic steps of its worker. */
  function Trace(p: Policy, size: nat, sched: nat -> Turn, k: nat): State {
    M.Trace(Advance(p, size), Init, sched, k)
  }

  /** `at` is the trace as a function of the number of steps. */
  ghost predicate Follows(at: nat -> State, p: Policy, size: nat, sched: nat -> Turn) {
    forall k: nat {:trigger Trace(p, size, sched, k)} :: at(k) == Trace(p, size, sched, k)
  }

  lemma NextTurn(at: nat -> State, p: Policy, size: nat, sched: nat -> Turn, k: nat)
    requires Follows(at, p, size, sched)
    ensures at(k + 1) == Turned(p, size, at(k), sched(k))
  {
    assert at(k) == Trace(p, size, sched, k) && at(k + 1) == Trace(p, size, sched, k + 1);
  }

  lemma OtherKeepsWorker(p: Policy, s: State, e: Event)
    requires !IsWork(e)
    ensures Step(p, s, e).w == s.w && Step(p, s, e).h.delivered == s.h.delivered && Step(p, s, e).h.attempts == s.h.attempts
  {}

  /** A trace is a run, so everything proved of runs holds along it. */
  lemma TraceIsRun(p: Policy, size: nat, sched: nat -> Turn, k: nat) returns (log: seq<Event>)
    ensures Trace(p, size, sched, k) == Run(p, log)
  {
    var path := (s: State, turn: Turn) =>
      M.Theirs(IsWork, turn.others) + [OwnEvent(size, Others(p, s, turn.others), turn.reply)];
    forall s, turn ensures Advance(p, size)(s, turn) == M.RunFrom(Stepper(p), s, path(s, turn)) {
      M.RunSnoc(Stepper(p), s, M.Theirs(IsWork, turn.others), OwnEvent(size, Others(p, s, turn.others), turn.reply));
    }
    log := M.TraceIsRun(Stepper(p), Advance(p, size), path, Init, sched, k);
  }

  lemma TraceIsGood(at: nat -> State, p: Policy, size: nat, sched: nat -> Turn, k: nat)
    requires Follows(at, p, size, sched)
    ensures Good(p, at(k))
  {
    assert at(k) == Trace(p, size, sched, k);
    var log := TraceIsRun(p, size, sched, k);
    RunIsGood(p, log);
  }

  // ---- a doomed worker exits in time ----

  /** The conditions under which the worker must exit, kept up by the turns that follow: for the
      policies that depend on the link, it does not come back. */
  ghost predicate Bound(p: Policy, s: State, linkStaysDown: bool) {
    T.DoomedForGood(p, s) || (T.Doomed(p, s) && linkStaysDown)
  }

  lemma BoundIsDoomed(p: Policy, s: State, down: bool)
    requires Bound(p, s, down)
    ensures T.Doomed(p, s)
  {}

  lemma BoundStep(p: Policy, s: State, e: Event, down: bool)
    requires Inv(p, s) && Bound(p, s, down) && (down ==> e != LinkUp)
    ensures Inv(p, Step(p, s, e)) && Bound(p, Step(p, s, e), down)
  {
    StepKeepsInv(p, s, e);
  }

  lemma {:induction false} BoundOthers(p: Policy, s: State, es: seq<Event>, down: bool)
    requires Inv(p, s) && Bound(p, s, down) && (down ==> LinkUp !in es)
    ensures var m := Others(p, s, es); Inv(p, m) && Bound(p, m, down) && m.w == s.w && T.Work(p, m) <= T.Work(p, s)
    decreases |es|
  {
    if es != [] {
      var n := |es| - 1;
      BoundOthers(p, s, es[..n], down);
      M.TheirsSnoc(Stepper(p), IsWork, s, es, n);
      assert es[..n + 1] == es;
      if !IsWork(es[n]) {
        var m := Others(p, s, es[..n]);
        BoundStep(p, m, es[n], down);
        BoundIsDoomed(p, m, down);
        OtherKeepsWorker(p, m, es[n]);
        T.DoomedStepLowersWork(p, m, es[n]);
      }
    }
  }

  lemma OwnEventMoves(p: Policy, size: nat, s: State, reply: Reply)
    requires Inv(p, s) && T.Doomed(p, s) && !s.w.pc.Exited? && size > 0
    ensures IsWork(OwnEvent(size, s, reply)) && Step(p, s, OwnEvent(size, s, reply)) != s
  {}

  lemma BoundTurn(p: Policy, size: nat, s: State, turn: Turn, down: bool)
    requires Inv(p, s) && Bound(p, s, down) && size > 0 && (down ==> LinkUp !in turn.others)
    ensures var t := Turned(p, size, s, turn);
      && Inv(p, t) && Bound(p, t, down)
      && if s.w.pc.Exited? then t.w.pc.Exited? else T.Work(p, t) < T.Work(p, s)
  {
    var m := Others(p, s, turn.others);
    var e := OwnEvent(size, m, turn.reply);
    BoundOthers(p, s, turn.others, down);
    BoundStep(p, m, e, down);
    BoundIsDoomed(p, m, down);
    T.DoomedStepLowersWork(p, m, e);
    if !s.w.pc.Exited? { OwnEventMoves(p, size, m, turn.reply); }
  }

  ghost predicate LinkStaysDown(sched: nat -> Turn, k: nat) {
    forall j: nat {:trigger sched(j)} :: k <= j ==> LinkUp !in sched(j).others
  }

  /** The worker must exit from turn k on. */
  ghost predicate MustExit(p: Policy, at: nat -> State, sched: nat -> Turn, k: nat) {
    Bound(p, at(k), LinkStaysDown(sched, k))
  }

  /** One turn of a worker that must exit. */
  lemma MustExitAt(at: nat -> State, p: Policy, size: nat, sched: nat -> Turn, down: bool, k: nat)
    requires Follows(at, p, size, sched) && size > 0
    requires Bound(p, at(k), down) && (down ==> LinkUp !in sched(k).others)
    ensures Bound(p, at(k + 1), down)
    ensures if at(k).w.pc.Exited? then at(k + 1).w.pc.Exited? else T.Work(p, at(k + 1)) < T.Work(p, at(k))
  {
    TraceIsGood(at, p, size, sched, k);
    NextTurn(at, p, size, sched, k);
    BoundTurn(p, size, at(k), sched(k), down);
  }

  lemma {:induction false} ExitsWithin(at: nat -> State, p: Policy, size: nat, sched: nat -> Turn, down: bool, k: nat, n: nat)
    requires Follows(at, p, size, sched) && size > 0
    requires Bound(p, at(k), down) && (down ==> LinkStaysDown(sched, k))
    requires T.Work(p, at(k)) <= n || at(k).w.pc.Exited?
    ensures at(k + n).w.pc.Exited?
    decreases n
  {
    MustExitAt(at, p, size, sched, down, k);
    if n > 0 { ExitsWithin(at, p, size, sched, down, k + 1, n - 1); }
  }

  /** It does so within Work of its steps, whatever else happens. */
  lemma ExitsInTime(at: nat -> State, p: Policy, size: nat, sched: nat -> Turn, k: nat, m: nat)
    requires Follows(at, p, size, sched) && size > 0
    requires MustExit(p, at, sched, k) && m >= k + T.Work(p, at(k))
    ensures at(m).w.pc.Exited?
  {
    ExitsWithin(at, p, size, sched, LinkStaysDown(sched, k), k, m - k);
  }

  // ---- delivery in time ----

  /** The worker is reading whether to give up, after a send that has already failed. */
  predicate Deciding(p: Policy, pc: Pc) {
    match p
    case Mqtt => false
    case NatsCore => pc == LoadDrainingOnError(true)
    case JetStream => pc == LoadDrainingOnError(true)
    case Rabbit => pc.LoadDraining?
    case Rocket => pc.LoadCtx? || pc.LoadDraining?
  }

  /** A turn in which the SDK accepts what it is given, the link is up for the clients that look at it, the
      context is open for NATS, and a worker that has a failed send behind it finds no reason to give up. */
  predicate Favourable(p: Policy, m: State, reply: Reply) {
    && reply.Ok?
    && (p.Mqtt? || p.NatsCore? || p.JetStream? ==> m.f.connected)
    && (p.NatsCore? || p.JetStream? ==> !m.f.ctxDone)
    && (Deciding(p, m.w.pc) ==> !m.f.draining && (p.Rocket? ==> !m.f.ctxDone))
  }

  /** Own steps to the next delivery, in favourable turns. */
  function StepsToDelivery(pc: Pc): nat {
    match pc
    case LoadDrainingOnError(_) => 9
    case LoadCtx => 9
    case LoadDraining => 8
    case LoadLinkAgain => 7
    case Dequeuing => 6
    case LoadCtxFirst => 5
    case LoadMode => 5
    case LoadLink => 4
    case Sending => 3
    case Awaiting => 2
    case Exited => 0
  }

  /** Own steps until `target` messages are delivered. */
  function StepsToDeliver(s: State, target: nat): nat {
    if |s.h.delivered| >= target then 0 else 10 * (target - |s.h.delivered|) + StepsToDelivery(s.w.pc)
  }

  /** The first `target` accepted messages are delivered, or the worker is still there to deliver them. */
  ghost predicate Delivering(p: Policy, s: State, target: nat) {
    target <= |s.h.accepted| && (|s.h.delivered| >= target || !s.w.pc.Exited?)
  }

  lemma AcceptedGrows(p: Policy, s: State, e: Event)
    ensures s.h.accepted <= Step(p, s, e).h.accepted && |s.h.delivered| <= |Step(p, s, e).h.delivered|
  {}

  lemma {:induction false} OthersDeliverNothing(p: Policy, s: State, es: seq<Event>)
    ensures var m := Others(p, s, es);
      m.w == s.w && m.h.delivered == s.h.delivered && m.h.attempts == s.h.attempts && s.h.accepted <= m.h.accepted
    decreases |es|
  {
    if es != [] {
      var n := |es| - 1;
      OthersDeliverNothing(p, s, es[..n]);
      M.TheirsSnoc(Stepper(p), IsWork, s, es, n);
      assert es[..n + 1] == es;
      if !IsWork(es[n]) {
        OtherKeepsWorker(p, Others(p, s, es[..n]), es[n]);
        AcceptedGrows(p, Others(p, s, es[..n]), es[n]);
      }
    }
  }

  lemma FavourableLoad(p: Policy, m: State, reply: Reply)
    requires ReasonInv(p, m) && Favourable(p, m, reply) && IsLoad(m.w.pc)
    ensures var t := DoLoad(p, m); !t.w.pc.Exited? && StepsToDelivery(t.w.pc) < StepsToDelivery(m.w.pc)
  {
    match p
    case Mqtt =>
    case Rabbit =>
    case Rocket =>
    case _ =>
  }

  /** Nothing accepted is missing from delivered messages, batch and queue together. */
  predicate Conserves(s: State) { |s.h.accepted| == |s.h.delivered| + |s.w.batch| + |s.q.items| }

  lemma DequeueNears(p: Policy, size: nat, m: State, target: nat)
    requires WorkerInv(p, m) && Conserves(m) && m.w.pc.Dequeuing? && |m.h.delivered| < target <= |m.h.accepted| && size > 0
    ensures var t := DoDequeue(p, m, M.Min(|m.q.items|, size));
      !t.w.pc.Exited? && StepsToDeliver(t, target) < StepsToDeliver(m, target)
  {
    assert m.q.items != [];
  }

  lemma AnswerNears(p: Policy, m: State, target: nat)
    requires WorkerInv(p, m) && m.w.pc.Awaiting? && |m.h.delivered| < target
    ensures var t := DoAnswer(p, m, Ok); !t.w.pc.Exited? && StepsToDeliver(t, target) < StepsToDeliver(m, target)
  {}

  /** The worker's own step in a favourable turn. */
  lemma FavourableStep(p: Policy, size: nat, m: State, reply: Reply, target: nat)
    requires WorkerInv(p, m) && ReasonInv(p, m) && Conserves(m) && size > 0
    requires Favourable(p, m, reply) && Delivering(p, m, target) && |m.h.delivered| < target
    ensures var t := Step(p, m, OwnEvent(size, m, reply));
      !t.w.pc.Exited? && StepsToDeliver(t, target) < StepsToDeliver(m, target)
  {
    match m.w.pc
    case Dequeuing => DequeueNears(p, size, m, target);
    case Sending =>
    case Awaiting => AnswerNears(p, m, target);
    case _ => FavourableLoad(p, m, reply);
  }

  lemma GoodConserves(p: Policy, s: State)
    requires Good(p, s)
    ensures WorkerInv(p, s) && ReasonInv(p, s) && Conserves(s)
  {
    assert |s.h.accepted| == |s.h.delivered| + |s.w.batch + s.q.items|;
  }

  lemma FavourableTurn(at: nat -> State, p: Policy, size: nat, sched: nat -> Turn, k: nat, target: nat)
    requires Follows(at, p, size, sched) && size > 0 && Delivering(p, at(k), target)
    requires Favourable(p, Others(p, at(k), sched(k).others), sched(k).reply)
    ensures Delivering(p, at(k + 1), target)
    ensures |at(k).h.delivered| < target ==> StepsToDeliver(at(k + 1), target) < StepsToDeliver(at(k), target)
    ensures |at(k).h.delivered| <= |at(k + 1).h.delivered|
  {
    var m := Others(p, at(k), sched(k).others);
    TraceIsGood(at, p, size, sched, k);
    OthersAreGood(p, at(k), sched(k).others);
    OthersDeliverNothing(p, at(k), sched(k).others);
    NextTurn(at, p, size, sched, k);
    GoodConserves(p, m);
    AcceptedGrows(p, m, OwnEvent(size, m, sched(k).reply));
    if |m.h.delivered| < target { FavourableStep(p, size, m, sched(k).reply, target); }
  }

  lemma OthersAreGood(p: Policy, s: State, es: seq<Event>)
    requires Good(p, s)
    ensures Good(p, Others(p, s, es))
  {
    RunFromKeepsGood(p, s, M.Theirs(IsWork, es));
  }

  /** Turns k to k + n - 1 are favourable. */
  ghost predicate FavourableFor(at: nat -> State, p: Policy, sched: nat -> Turn, k: nat, n: nat) {
    forall j: nat {:trigger sched(j)} :: k <= j < k + n ==> Favourable(p, Others(p, at(j), sched(j).others), sched(j).reply)
  }

  lemma {:induction false} DeliversCount(at: nat -> State, p: Policy, size: nat, sched: nat -> Turn, k: nat, n: nat, target: nat)
    requires Follows(at, p, size, sched) && size > 0 && Delivering(p, at(k), target)
    requires FavourableFor(at, p, sched, k, n) && StepsToDeliver(at(k), target) <= n
    ensures |at(k + n).h.delivered| >= target
    decreases n
  {
    if n > 0 {
      FavourableTurn(at, p, size, sched, k, target);
      DeliversCount(at, p, size, sched, k + 1, n - 1, target);
    }
  }

  lemma {:induction false} DeliveredGrows(at: nat -> State, p: Policy, size: nat, sched: nat -> Turn, k: nat, n: nat)
    requires Follows(at, p, size, sched)
    ensures at(k).h.accepted <= at(k + n).h.accepted && |at(k).h.delivered| <= |at(k + n).h.delivered|
    decreases n
  {
    if n > 0 {
      var m := Others(p, at(k), sched(k).others);
      OthersDeliverNothing(p, at(k), sched(k).others);
      NextTurn(at, p, size, sched, k);
      AcceptedGrows(p, m, OwnEvent(size, m, sched(k).reply));
      DeliveredGrows(at, p, size, sched, k + 1, n - 1);
    }
  }

  /** Own steps within which the backlog of a state is delivered. */
  function DeliveryBound(s: State): nat { 10 * (|s.w.batch| + |s.q.items|) + 9 }

  /** Delivery.  A worker that has not exited delivers everything accepted so far, in order, within a number of
      its steps given by queue and batch, if those turns are favourable; for all five clients, draining or not. */
  lemma DeliversWithin(at: nat -> State, p: Policy, size: nat, sched: nat -> Turn, k: nat, m: nat)
    requires Follows(at, p, size, sched) && size > 0 && !at(k).w.pc.Exited?
    requires FavourableFor(at, p, sched, k, DeliveryBound(at(k))) && m >= k + DeliveryBound(at(k))
    ensures at(k).h.accepted <= at(m).h.delivered
  {
    var n := DeliveryBound(at(k));
    var target := |at(k).h.accepted|;
    TraceIsGood(at, p, size, sched, k);
    assert target == |at(k).h.delivered| + |at(k).w.batch| + |at(k).q.items|;
    DeliversCount(at, p, size, sched, k, n, target);
    DeliveredGrows(at, p, size, sched, k, m - k);
    DeliveredGrows(at, p, size, sched, k + n, m - k - n);
    AcceptedPrefix(at, p, size, sched, m, at(k).h.accepted);
  }

  lemma AcceptedPrefix(at: nat -> State, p: Policy, size: nat, sched: nat -> Turn, m: nat, first: seq<Message>)
    requires Follows(at, p, size, sched) && first <= at(m).h.accepted && |first| <= |at(m).h.delivered|
    ensures first <= at(m).h.delivered
  {
    TraceIsGood(at, p, size, sched, m);
    var s := at(m);
    assert s.h.accepted == s.h.delivered + (s.w.batch + s.q.items);
  }

  /** An exited worker delivers nothing more. */
  lemma {:induction false} ExitedDeliversNothing(at: nat -> State, p: Policy, size: nat, sched: nat -> Turn, k: nat, n: nat)
    requires Follows(at, p, size, sched) && at(k).w.pc.Exited?
    ensures at(k + n).w.pc.Exited? && at(k + n).h.delivered == at(k).h.delivered
    decreases n
  {
    if n > 0 {
      OthersDeliverNothing(p, at(k), sched(k).others);
      NextTurn(at, p, size, sched, k);
      ExitedDeliversNothing(at, p, size, sched, k + 1, n - 1);
    }
  }
}
