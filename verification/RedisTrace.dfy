/** The Redis publisher's goroutine in the foreground: which event its next atomic step is, and where a
    schedule of Publish and Close calls and of Redis's answers takes the publisher. */
module RedisTrace {
  import M = Machine
  import opened RedisPublisher
  import T = RedisTheorems

  /** Steps of other goroutines before an atomic step of the goroutine, and the answer of Redis to it. */
  datatype Turn = Turn(others: seq<Event>, ok: bool)

  const DefaultBatchSize: nat := 32

  /** max(bufferSize / 4, DefaultBatchSize) */
  function BatchSize(bufferSize: nat): (n: nat)
    ensures n >= 32 && n >= bufferSize / 4 && (n == 32 || n == bufferSize / 4)
  {
    if bufferSize / 4 < DefaultBatchSize then DefaultBatchSize else bufferSize / 4
  }

  /** The goroutine's next event. */
  function OwnEvent(bufferSize: nat, s: State, ok: bool): Event {
    match s.w.pc
    case Loop(l) => if l.Pinging? then Ping(ok) else Move
    case Publishing(p) =>
      if p.TryDequeue? then Dequeue(M.Min(|s.q.items|, BatchSize(bufferSize)))
      else if p.DrainDequeue? then Dequeue(M.Min(|s.q.items|, bufferSize)) else Move
    case Array(a) => if a.Sending? then Send else if a.Awaiting? then Answer(ok) else Move
  }

  function Others(s: State, es: seq<Event>): State { RunFrom(s, M.Theirs(IsWork, es)) }

  function Turned(bufferSize: nat, s: State, turn: Turn): State {
    var m := Others(s, turn.others);
    Step(m, OwnEvent(bufferSize, m, turn.ok))
  }

  function Advance(bufferSize: nat): (State, Turn) -> State { (s, turn) => Turned(bufferSize, s, turn) }

  /** The publisher after k atomic steps of its goroutine. */
  function Trace(bufferSize: nat, sched: nat -> Turn, k: nat): State { M.Trace(Advance(bufferSize), Init, sched, k) }

  /** `at` is the trace as a function of the number of steps. */
  ghost predicate Follows(at: nat -> State, bufferSize: nat, sched: nat -> Turn) {
    forall k: nat {:trigger Trace(bufferSize, sched, k)} :: at(k) == Trace(bufferSize, sched, k)
  }

  lemma NextTurn(at: nat -> State, bufferSize: nat, sched: nat -> Turn, k: nat)
    requires Follows(at, bufferSize, sched)
    ensures at(k + 1) == Turned(bufferSize, at(k), sched(k))
  {
    assert at(k) == Trace(bufferSize, sched, k) && at(k + 1) == Trace(bufferSize, sched, k + 1);
  }

  /** What belongs to the goroutine alone. */
  predicate Kept(s: State, t: State) {
    t.w == s.w && t.h.settled == s.h.settled && t.h.attempts == s.h.attempts
  }

  lemma OtherKeeps(s: State, e: Event)
    requires !IsWork(e)
    ensures Kept(s, Step(s, e))
  {}

  /** A trace is a run, so everything proved of runs holds along it. */
  lemma TraceInv(at: nat -> State, bufferSize: nat, sched: nat -> Turn, k: nat)
    requires Follows(at, bufferSize, sched)
    ensures Inv(at(k))
  {
    var path := (s: State, turn: Turn) =>
      M.Theirs(IsWork, turn.others) + [OwnEvent(bufferSize, Others(s, turn.others), turn.ok)];
    forall s, turn ensures Advance(bufferSize)(s, turn) == M.RunFrom(Step, s, path(s, turn)) {
      M.RunSnoc(Step, s, M.Theirs(IsWork, turn.others), OwnEvent(bufferSize, Others(s, turn.others), turn.ok));
    }
    var log := M.TraceIsRun(Step, Advance(bufferSize), path, Init, sched, k);
    assert at(k) == Trace(bufferSize, sched, k);
    RunInv(log);
  }

  // ---- a draining goroutine stops in time ----

  ghost predicate Draining(s: State) { Inv(s) && s.f.draining }

  lemma DrainingOther(s: State, e: Event)
    requires Draining(s)
    ensures Draining(Step(s, e)) && T.Work(Step(s, e)) <= T.Work(s)
  {
    StepKeepsInv(s, e);
    T.DrainingIsKept(s, e);
    T.DrainingStepLowersWork(s, e);
  }

  lemma {:induction false} DrainingOthers(s: State, es: seq<Event>)
    requires Draining(s)
    ensures var m := Others(s, es); Draining(m) && T.Work(m) <= T.Work(s) && m.w == s.w
    decreases |es|
  {
    if es != [] {
      var n := |es| - 1;
      DrainingOthers(s, es[..n]);
      M.TheirsSnoc(Step, IsWork, s, es, n);
      assert es[..n + 1] == es;
      var m := Others(s, es[..n]);
      if !IsWork(es[n]) {
        DrainingOther(m, es[n]);
        OtherKeeps(m, es[n]);
      }
    }
  }

  lemma OwnEventMoves(bufferSize: nat, s: State, ok: bool)
    requires Draining(s) && bufferSize > 0 && s.w.pc != Loop(Stopped)
    ensures IsWork(OwnEvent(bufferSize, s, ok)) && Step(s, OwnEvent(bufferSize, s, ok)) != s
  {
    match s.w.pc
    case Loop(l) =>
    case Publishing(p) =>
    case Array(a) =>
  }

  lemma DrainingTurn(bufferSize: nat, s: State, turn: Turn)
    requires Draining(s) && bufferSize > 0
    ensures var t := Turned(bufferSize, s, turn);
      Draining(t) && if s.w.pc == Loop(Stopped) then t.w.pc == Loop(Stopped) else T.Work(t) < T.Work(s)
  {
    var m := Others(s, turn.others);
    var e := OwnEvent(bufferSize, m, turn.ok);
    DrainingOthers(s, turn.others);
    DrainingOther(m, e);
    T.DrainingStepLowersWork(m, e);
    if s.w.pc != Loop(Stopped) { OwnEventMoves(bufferSize, m, turn.ok); }
  }

  /** Once draining is set the goroutine has stopped within Work of its steps, whatever Redis answers. */
  lemma {:induction false} StopsWithin(at: nat -> State, bufferSize: nat, sched: nat -> Turn, k: nat, n: nat)
    requires Follows(at, bufferSize, sched) && bufferSize > 0 && Draining(at(k))
    requires T.Work(at(k)) <= n || at(k).w.pc == Loop(Stopped)
    ensures at(k + n).w.pc == Loop(Stopped)
    decreases n
  {
    NextTurn(at, bufferSize, sched, k);
    DrainingTurn(bufferSize, at(k), sched(k));
    if n > 0 { StopsWithin(at, bufferSize, sched, k + 1, n - 1); }
  }

  // ---- publishing in time ----

  /** Before draining the goroutine is on its way to a connection exactly while there is none, and does not stop. */
  predicate OnItsWay(s: State) {
    !s.f.draining ==>
      && s.w.pc != Loop(Stopped)
      && (s.f.connected && s.w.pc.Loop? ==> s.w.pc.l.Adding?)
      && (s.w.pc == Loop(Adding) ==> s.f.connected)
  }

  lemma StepKeepsOnItsWay(s: State, e: Event)
    requires Inv(s) && OnItsWay(s)
    ensures OnItsWay(Step(s, e))
  {
    match e
    case Move =>
      match s.w.pc {
        case Loop(l) =>
        case Publishing(p) => LeavingLeaves(s);
        case Array(a) =>
      }
    case _ =>
  }

  /** Before draining startPublish is left only with the link down. */
  lemma LeavingLeaves(s: State)
    requires Inv(s) && s.w.pc.Publishing?
    ensures OnItsWay(DoMove(s))
  {
    if s.w.pc.p.Leaving? {
      match s.w.pc.p.via
      case ViaDrain =>
      case ViaDisconnect =>
      case ViaClosedQueue =>
    }
  }

  lemma {:induction false} RunKeepsOnItsWay(s: State, log: seq<Event>)
    requires Inv(s) && OnItsWay(s)
    ensures Inv(RunFrom(s, log)) && OnItsWay(RunFrom(s, log))
    decreases |log|
  {
    if log != [] {
      StepKeepsInv(s, log[0]);
      StepKeepsOnItsWay(s, log[0]);
      RunKeepsOnItsWay(Step(s, log[0]), log[1..]);
    }
  }

  lemma {:induction false} TraceOnItsWay(at: nat -> State, bufferSize: nat, sched: nat -> Turn, k: nat)
    requires Follows(at, bufferSize, sched)
    ensures Inv(at(k)) && OnItsWay(at(k))
    decreases k
  {
    TraceInv(at, bufferSize, sched, k);
    assert at(k) == Trace(bufferSize, sched, k);
    if k > 0 {
      TraceOnItsWay(at, bufferSize, sched, k - 1);
      NextTurn(at, bufferSize, sched, k - 1);
      var m := Others(at(k - 1), sched(k - 1).others);
      RunKeepsOnItsWay(at(k - 1), M.Theirs(IsWork, sched(k - 1).others));
      StepKeepsOnItsWay(m, OwnEvent(bufferSize, m, sched(k - 1).ok));
    }
  }

  /** Own steps to the end of the next batch, while Redis answers. */
  function StepsToSettle(s: State): nat {
    match s.w.pc
    case Loop(l) =>
      (match l case StoreDown => 12 case LoopLoadDraining => 11 case LoopLoadConnected => 10 case Pinging => 9
               case StoreUp => 8 case Adding => 7 case Stopped => 0)
    case Publishing(p) =>
      (match p case LoadDraining => (if s.f.connected then 6 else 15) case LoadConnected => (if s.f.connected then 5 else 14)
               case LoadDrainingAgain => 13 case Leaving(_) => 12 case TryDequeue => 4 case DrainDequeue => 4)
    case Array(a) =>
      (match a case LoadOnError => 6 case StoreOnError => 5 case LoadRetry => 4 case LoadMode => 3 case Sending => 2 case Awaiting => 1)
  }

  function SettledCount(s: State): nat { |Flatten(Batches(s.h.settled))| }

  function StepsToPublish(s: State, target: nat): nat {
    if SettledCount(s) >= target then 0 else 20 * (target - SettledCount(s)) + StepsToSettle(s)
  }

  /** Redis answers, and Close has not been called. */
  predicate Serving(m: State, ok: bool) { ok && !m.f.draining }

  lemma SettleCounts(s: State, ok: bool)
    ensures SettledCount(Settle(s, ok)) == SettledCount(s) + |s.w.job.batch|
  {
    assert Batches(Settle(s, ok).h.settled) == Batches(s.h.settled) + [s.w.job.batch];
    FlattenSnoc(Batches(s.h.settled), s.w.job.batch);
  }

  lemma MoveNears(m: State, target: nat)
    requires Inv(m) && OnItsWay(m) && !m.f.draining && SettledCount(m) < target
    requires OwnEvent(1, m, true) == Move
    ensures DoMove(m).h.settled == m.h.settled && StepsToSettle(DoMove(m)) < StepsToSettle(m)
  {
    match m.w.pc
    case Loop(l) =>
    case Publishing(p) =>
    case Array(a) =>
  }

  lemma DequeueNears(m: State, n: nat)
    requires Inv(m) && m.w.pc == Publishing(TryDequeue) && m.q.items != [] && 1 <= n <= |m.q.items|
    ensures DoDequeue(m, n).h.settled == m.h.settled && StepsToSettle(DoDequeue(m, n)) < StepsToSettle(m)
  {}

  lemma AnswerNears(m: State, target: nat)
    requires Inv(m) && m.w.pc == Array(Awaiting) && SettledCount(m) < target && !m.f.draining
    ensures StepsToPublish(DoAnswer(m, true), target) < StepsToPublish(m, target)
  {
    SettleCounts(m, true);
    assert StepsToSettle(DoAnswer(m, true)) <= 15;
  }

  /** The goroutine's own step while Redis answers, from wherever it is. */
  lemma ServingStep(bufferSize: nat, m: State, target: nat)
    requires Inv(m) && OnItsWay(m) && Serving(m, true) && bufferSize > 0 && SettledCount(m) < target <= |m.h.accepted|
    ensures StepsToPublish(Step(m, OwnEvent(bufferSize, m, true)), target) < StepsToPublish(m, target)
  {
    assert |m.h.accepted| == SettledCount(m) + |m.w.job.batch| + |m.q.items|;
    match m.w.pc
    case Loop(l) => if !l.Pinging? { MoveNears(m, target); }
    case Publishing(p) =>
      if p.TryDequeue? {
        DequeueNears(m, M.Min(|m.q.items|, BatchSize(bufferSize)));
      } else {
        MoveNears(m, target);
      }
    case Array(a) => if a.Awaiting? { AnswerNears(m, target); } else if !a.Sending? { MoveNears(m, target); }
  }

  lemma OtherServes(s: State, e: Event)
    ensures s.h.accepted <= Step(s, e).h.accepted
    ensures IsWork(e) ==> Step(s, e).f.draining == s.f.draining
    ensures !IsWork(e) ==> (s.f.draining ==> Step(s, e).f.draining) && (!Step(s, e).f.draining ==> Step(s, e).f.connected == s.f.connected)
  {}

  lemma {:induction false} OthersServe(s: State, es: seq<Event>)
    requires Inv(s) && OnItsWay(s)
    ensures var m := Others(s, es);
      && Inv(m) && OnItsWay(m) && Kept(s, m) && s.h.accepted <= m.h.accepted
      && (s.f.draining ==> m.f.draining) && (!m.f.draining ==> m.f.connected == s.f.connected)
    decreases |es|
  {
    if es != [] {
      var n := |es| - 1;
      OthersServe(s, es[..n]);
      M.TheirsSnoc(Step, IsWork, s, es, n);
      assert es[..n + 1] == es;
      var m := Others(s, es[..n]);
      if !IsWork(es[n]) {
        StepKeepsInv(m, es[n]);
        StepKeepsOnItsWay(m, es[n]);
        OtherKeeps(m, es[n]);
        OtherServes(m, es[n]);
      }
    }
  }

  lemma SettledGrows(s: State, e: Event)
    ensures SettledCount(s) <= SettledCount(Step(s, e))
  {
    T.SettledStep(s, e);
  }

  lemma ServingTurn(at: nat -> State, bufferSize: nat, sched: nat -> Turn, k: nat, target: nat)
    requires Follows(at, bufferSize, sched) && bufferSize > 0 && target <= |at(k).h.accepted|
    requires Serving(Others(at(k), sched(k).others), sched(k).ok)
    ensures at(k).h.accepted <= at(k + 1).h.accepted
    ensures if SettledCount(at(k)) < target then StepsToPublish(at(k + 1), target) < StepsToPublish(at(k), target)
            else SettledCount(at(k + 1)) >= target
  {
    var m := Others(at(k), sched(k).others);
    TraceOnItsWay(at, bufferSize, sched, k);
    OthersServe(at(k), sched(k).others);
    NextTurn(at, bufferSize, sched, k);
    OtherServes(m, OwnEvent(bufferSize, m, sched(k).ok));
    assert StepsToPublish(m, target) == StepsToPublish(at(k), target);
    if SettledCount(m) < target { ServingStep(bufferSize, m, target); } else { SettledGrows(m, OwnEvent(bufferSize, m, sched(k).ok)); }
  }

  /** In own steps k to k + n - 1 Redis answers and Close has not been called. */
  ghost predicate ServingFor(at: nat -> State, sched: nat -> Turn, k: nat, n: nat) {
    forall j: nat {:trigger sched(j)} :: k <= j < k + n ==> Serving(Others(at(j), sched(j).others), sched(j).ok)
  }

  lemma {:induction false} PublishesCount(at: nat -> State, bufferSize: nat, sched: nat -> Turn, k: nat, n: nat, target: nat)
    requires Follows(at, bufferSize, sched) && bufferSize > 0 && target <= |at(k).h.accepted|
    requires ServingFor(at, sched, k, n) && StepsToPublish(at(k), target) <= n
    ensures SettledCount(at(k + n)) >= target && at(k).h.accepted <= at(k + n).h.accepted
    decreases n
  {
    if n > 0 {
      ServingTurn(at, bufferSize, sched, k, target);
      PublishesCount(at, bufferSize, sched, k + 1, n - 1, target);
    }
  }

  function PublishBound(s: State): nat { 20 * (|s.w.job.batch| + |s.q.items|) + 15 }

  /** Publication.  From any state, connected or not, everything accepted so far is published, in order, within a
      number of the goroutine's steps given by batch and queue, if Redis answers during those steps and Close has
      not been called. */
  lemma PublishesWithin(at: nat -> State, bufferSize: nat, sched: nat -> Turn, k: nat)
    requires Follows(at, bufferSize, sched) && bufferSize > 0 && ServingFor(at, sched, k, PublishBound(at(k)))
    ensures var t := at(k + PublishBound(at(k))); at(k).h.accepted <= Flatten(Batches(t.h.settled))
    ensures AllOk(at(k + PublishBound(at(k))).h.settled)
  {
    var n := PublishBound(at(k));
    TraceOnItsWay(at, bufferSize, sched, k);
    assert |at(k).h.accepted| == SettledCount(at(k)) + |at(k).w.job.batch| + |at(k).q.items|;
    PublishesCount(at, bufferSize, sched, k, n, |at(k).h.accepted|);
    PublishedFirst(at, bufferSize, sched, k + n, at(k).h.accepted);
    StillServing(at, bufferSize, sched, k + n - 1);
  }

  lemma PublishedFirst(at: nat -> State, bufferSize: nat, sched: nat -> Turn, m: nat, first: seq<Message>)
    requires Follows(at, bufferSize, sched) && first <= at(m).h.accepted && |first| <= SettledCount(at(m))
    ensures first <= Flatten(Batches(at(m).h.settled))
  {
    TraceInv(at, bufferSize, sched, m);
    var t := at(m);
    assert t.h.accepted == Flatten(Batches(t.h.settled)) + (t.w.job.batch + t.q.items);
  }

  lemma StillServing(at: nat -> State, bufferSize: nat, sched: nat -> Turn, k: nat)
    requires Follows(at, bufferSize, sched) && Serving(Others(at(k), sched(k).others), sched(k).ok)
    ensures AllOk(at(k + 1).h.settled)
  {
    var m := Others(at(k), sched(k).others);
    TraceInv(at, bufferSize, sched, k + 1);
    NextTurn(at, bufferSize, sched, k);
    OtherServes(m, OwnEvent(bufferSize, m, sched(k).ok));
  }

  /** What is settled stays settled, and draining is never unset. */
  lemma {:induction false} LaterKeeps(at: nat -> State, bufferSize: nat, sched: nat -> Turn, k: nat, n: nat)
    requires Follows(at, bufferSize, sched)
    ensures Flatten(Batches(at(k).h.settled)) <= Flatten(Batches(at(k + n).h.settled))
    ensures at(k).f.draining ==> at(k + n).f.draining
    decreases n
  {
    if n > 0 {
      var m := Others(at(k), sched(k).others);
      TraceOnItsWay(at, bufferSize, sched, k);
      OthersServe(at(k), sched(k).others);
      NextTurn(at, bufferSize, sched, k);
      T.SettledStep(m, OwnEvent(bufferSize, m, sched(k).ok));
      OtherServes(m, OwnEvent(bufferSize, m, sched(k).ok));
      LaterKeeps(at, bufferSize, sched, k + 1, n - 1);
    }
  }

  /** The last of the serving turns is not past a store of draining. */
  lemma NotDrainingUpTo(at: nat -> State, bufferSize: nat, sched: nat -> Turn, clock: nat, j: nat)
    requires Follows(at, bufferSize, sched) && clock <= j && Serving(Others(at(j), sched(j).others), sched(j).ok)
    ensures !at(clock).f.draining
  {
    LaterKeeps(at, bufferSize, sched, clock, j - clock);
    TraceOnItsWay(at, bufferSize, sched, j);
    OthersServe(at(j), sched(j).others);
  }
}
