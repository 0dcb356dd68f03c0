/** One goroutine of the consumer group in the foreground: which event its next atomic step is, and
    where a schedule of everything else takes the group.  KafkaGroup's loops are proved to compute
    exactly this trace. */
module KafkaTrace {
  import M = Machine
  import opened KafkaConsumer
  import T = KafkaConsumerTheorems

  /** What surrounds one atomic step of the foreground goroutine: the other goroutines' steps
      before it, what the claim's channel does, and whether the ring buffer is full. */
  datatype Turn = Turn(others: seq<Event>, offset: int, closed: bool, full: bool)

  datatype Role = ClaimLoop(c: nat) | WorkerLoop | Subscriber

  predicate Mine(me: Role, e: Event) {
    match me
    case ClaimLoop(c) => IsOwn(e, c)
    case WorkerLoop => e.Poll? || e.Dispatch? || e.WorkerLoad?
    case Subscriber => e.SyncNext?
  }

  /** The claim loop's next event.  An open channel with nothing deliverable leaves it where it is. */
  function ClaimEvent(c: nat, s: State, turn: Turn): Event {
    if c >= |s.claims| then ClaimLoad(c)
    else match s.claims[c].pc
      case Ranging => if turn.closed then ChannelClosed(c) else Receive(c, turn.offset)
      case Trying => Try(c, turn.full)
      case Marking => Mark(c)
      case _ => ClaimLoad(c)
  }

  function OwnEvent(me: Role, size: nat, s: State, turn: Turn): Event {
    match me
    case ClaimLoop(c) => ClaimEvent(c, s, turn)
    case WorkerLoop =>
      if s.w.pc.Polling? then Poll(M.Min(|s.sh.queue|, size)) else if s.w.pc.Dispatching? then Dispatch else WorkerLoad
    case Subscriber => SyncNext
  }

  function IsMine(me: Role): Event -> bool { e => Mine(me, e) }

  function Others(me: Role, s: State, es: seq<Event>): State {
    RunFrom(s, M.Theirs(IsMine(me), es))
  }

  function Turned(me: Role, size: nat, s: State, turn: Turn): State {
    var m := Others(me, s, turn.others);
    Step(m, OwnEvent(me, size, m, turn))
  }

  function Advance(me: Role, size: nat): (State, Turn) -> State { (s, turn) => Turned(me, size, s, turn) }

  /** The group after k atomic steps of its foreground goroutine. */
  function Trace(me: Role, size: nat, base: State, sched: nat -> Turn, k: nat): State {
    M.Trace(Advance(me, size), base, sched, k)
  }

  /** `at` is the trace as a function of the number of steps. */
  ghost predicate Follows(at: nat -> State, me: Role, size: nat, base: State, sched: nat -> Turn) {
    forall k: nat {:trigger Trace(me, size, base, sched, k)} :: at(k) == Trace(me, size, base, sched, k)
  }

  lemma NextTurn(at: nat -> State, me: Role, size: nat, base: State, sched: nat -> Turn, k: nat)
    requires Follows(at, me, size, base, sched)
    ensures at(k + 1) == Turned(me, size, at(k), sched(k))
  {
    assert at(k) == Trace(me, size, base, sched, k) && at(k + 1) == Trace(me, size, base, sched, k + 1);
  }

  /** The part of the state that belongs to the foreground goroutine. */
  ghost predicate Kept(me: Role, s: State, t: State) {
    match me
    case ClaimLoop(c) => c < |s.claims| ==> c < |t.claims| && t.claims[c].(mark := 0) == s.claims[c].(mark := 0)
    case WorkerLoop => t.w == s.w && t.h.dispatched == s.h.dispatched
    case Subscriber => t.sh.sync == s.sh.sync
  }

  lemma OtherKeeps(me: Role, s: State, e: Event)
    requires !Mine(me, e)
    ensures Kept(me, s, Step(s, e))
  {
    if me.ClaimLoop? && me.c < |s.claims| { OthersLeaveClaim(s, e, me.c); }
  }

  /** A trace from a reachable state is a run. */
  lemma TraceIsRun(me: Role, size: nat, before: seq<Event>, sched: nat -> Turn, k: nat) returns (log: seq<Event>)
    ensures Trace(me, size, Run(before), sched, k) == Run(log)
  {
    var path := (s: State, turn: Turn) =>
      M.Theirs(IsMine(me), turn.others) + [OwnEvent(me, size, Others(me, s, turn.others), turn)];
    forall s, turn ensures Advance(me, size)(s, turn) == M.RunFrom(Step, s, path(s, turn)) {
      M.RunSnoc(Step, s, M.Theirs(IsMine(me), turn.others), OwnEvent(me, size, Others(me, s, turn.others), turn));
    }
    var after := M.TraceIsRun(Step, Advance(me, size), path, Run(before), sched, k);
    M.RunFromAppend(Step, Init, before, after);
    log := before + after;
  }

  lemma TraceInv(at: nat -> State, me: Role, size: nat, before: seq<Event>, sched: nat -> Turn, k: nat)
    requires Follows(at, me, size, Run(before), sched)
    ensures Inv(at(k))
  {
    assert at(k) == Trace(me, size, Run(before), sched, k);
    var log := TraceIsRun(me, size, before, sched, k);
    RunInv(log);
  }

  // ---- a cancelled claim loop ends in time ----

  lemma {:induction false} OthersKeepClaim(c: nat, s: State, es: seq<Event>)
    requires Inv(s) && s.sh.ctxDone && c < |s.claims|
    ensures var m := Others(ClaimLoop(c), s, es); Inv(m) && m.sh.ctxDone && Kept(ClaimLoop(c), s, m)
    decreases |es|
  {
    if es != [] {
      var n := |es| - 1;
      OthersKeepClaim(c, s, es[..n]);
      M.TheirsSnoc(Step, IsMine(ClaimLoop(c)), s, es, n);
      assert es[..n + 1] == es;
      var m := Others(ClaimLoop(c), s, es[..n]);
      if !Mine(ClaimLoop(c), es[n]) {
        StepKeepsInv(m, es[n]);
        OtherKeeps(ClaimLoop(c), m, es[n]);
        T.CancelIsRememberedStep(m, es[n]);
      }
    }
  }

  /** The turn finds the claim's channel closed or with a message for it, should the loop be at it. */
  ghost predicate Fed(c: nat, m: State, turn: Turn) {
    At(m, c, Ranging) ==> turn.closed || Deliverable(m.claims[c], turn.offset)
  }

  lemma FedEventMoves(c: nat, m: State, turn: Turn)
    requires Inv(m) && Live(m, c) && Fed(c, m, turn)
    ensures IsOwn(ClaimEvent(c, m, turn), c) && Step(m, ClaimEvent(c, m, turn)) != m
  {
    assert ClaimInv(m.claims[c]);
    T.CancelledClaimIsNotBlocked(m, c, turn.full);
  }

  lemma CancelledTurn(c: nat, size: nat, s: State, turn: Turn)
    requires Inv(s) && s.sh.ctxDone && c < |s.claims| && Fed(c, Others(ClaimLoop(c), s, turn.others), turn)
    ensures var t := Turned(ClaimLoop(c), size, s, turn);
      && Inv(t) && t.sh.ctxDone && c < |t.claims|
      && if s.claims[c].pc.Done? then t.claims[c].pc.Done? else T.StepsLeft(t.claims[c]) < T.StepsLeft(s.claims[c])
  {
    var m := Others(ClaimLoop(c), s, turn.others);
    var e := ClaimEvent(c, m, turn);
    OthersKeepClaim(c, s, turn.others);
    assert m.claims[c].pc == s.claims[c].pc by { assert m.claims[c].(mark := 0).pc == s.claims[c].(mark := 0).pc; }
    StepKeepsInv(m, e);
    T.CancelIsRememberedStep(m, e);
    T.CancelledStepLowersStepsLeft(m, e, c);
    if Live(m, c) { FedEventMoves(c, m, turn); }
  }

  /** Own steps k to k + n - 1 all find the channel closed or with a message. */
  ghost predicate FedFor(c: nat, at: nat -> State, sched: nat -> Turn, k: nat, n: nat) {
    forall j: nat {:trigger sched(j)} :: k <= j < k + n ==> Fed(c, Others(ClaimLoop(c), at(j), sched(j).others), sched(j))
  }

  predicate Cancelled(c: nat, s: State) { s.sh.ctxDone && c < |s.claims| }

  function LeftOf(c: nat, s: State): nat { if c < |s.claims| then T.StepsLeft(s.claims[c]) else 0 }

  lemma CancelledAt(c: nat, at: nat -> State, size: nat, before: seq<Event>, sched: nat -> Turn, k: nat)
    requires Follows(at, ClaimLoop(c), size, Run(before), sched) && Cancelled(c, at(k)) && FedFor(c, at, sched, k, 1)
    ensures Cancelled(c, at(k + 1))
    ensures At(at(k), c, Done) ==> At(at(k + 1), c, Done)
    ensures LeftOf(c, at(k)) > 0 ==> LeftOf(c, at(k + 1)) < LeftOf(c, at(k))
    ensures At(at(k), c, Done) <==> LeftOf(c, at(k)) == 0
  {
    TraceInv(at, ClaimLoop(c), size, before, sched, k);
    NextTurn(at, ClaimLoop(c), size, Run(before), sched, k);
    CancelledTurn(c, size, at(k), sched(k));
  }

  /** A loop that is done has no turn to be fed in. */
  lemma DoneIsFed(c: nat, at: nat -> State, size: nat, before: seq<Event>, sched: nat -> Turn, k: nat)
    requires Follows(at, ClaimLoop(c), size, Run(before), sched) && Cancelled(c, at(k)) && At(at(k), c, Done)
    ensures FedFor(c, at, sched, k, 1)
  {
    TraceInv(at, ClaimLoop(c), size, before, sched, k);
    OthersKeepClaim(c, at(k), sched(k).others);
    var m := Others(ClaimLoop(c), at(k), sched(k).others);
    assert m.claims[c].pc == at(k).claims[c].pc by {
      assert m.claims[c].(mark := 0).pc == at(k).claims[c].(mark := 0).pc;
    }
  }

  lemma {:induction false} ClaimEndsWithin(c: nat, at: nat -> State, size: nat, before: seq<Event>, sched: nat -> Turn, k: nat, n: nat)
    requires Follows(at, ClaimLoop(c), size, Run(before), sched) && Cancelled(c, at(k))
    requires FedFor(c, at, sched, k, n) && LeftOf(c, at(k)) <= n
    ensures Cancelled(c, at(k + n)) && At(at(k + n), c, Done)
    decreases n
  {
    if n > 0 {
      CancelledAt(c, at, size, before, sched, k);
      ClaimEndsWithin(c, at, size, before, sched, k + 1, n - 1);
    }
  }

  lemma {:induction false} ClaimStaysDone(c: nat, at: nat -> State, size: nat, before: seq<Event>, sched: nat -> Turn, k: nat, n: nat)
    requires Follows(at, ClaimLoop(c), size, Run(before), sched) && Cancelled(c, at(k)) && At(at(k), c, Done)
    ensures At(at(k + n), c, Done)
    decreases n
  {
    if n > 0 {
      DoneIsFed(c, at, size, before, sched, k);
      CancelledAt(c, at, size, before, sched, k);
      ClaimStaysDone(c, at, size, before, sched, k + 1, n - 1);
    }
  }

  /** A cancelled claim loop whose channel does not keep it waiting is done after six of its steps, or any
      number more. */
  lemma ClaimEndsBy(c: nat, at: nat -> State, size: nat, before: seq<Event>, sched: nat -> Turn, k: nat, m: nat)
    requires Follows(at, ClaimLoop(c), size, Run(before), sched) && Cancelled(c, at(k)) && FedFor(c, at, sched, k, 6) && m >= k + 6
    ensures At(at(m), c, Done)
  {
    ClaimEndsWithin(c, at, size, before, sched, k, 6);
    ClaimStaysDone(c, at, size, before, sched, k + 6, m - k - 6);
  }

  // ---- the worker ends in time once the group is closed ----

  predicate GroupOver(s: State) { s.sh.sync.GroupClosed? || s.sh.sync.Sealed? || s.sh.sync.Finished? }

  /** Steps of the worker until it is gone. */
  function PollsLeft(s: State): nat {
    2 * |s.sh.queue| + |s.w.batch| + match s.w.pc case Gone => 0 case CheckCtx => 1 case _ => 2
  }

  lemma OverStep(s: State, e: Event)
    requires Inv(s) && GroupOver(s)
    ensures Inv(Step(s, e)) && GroupOver(Step(s, e))
    ensures !Mine(WorkerLoop, e) ==> PollsLeft(Step(s, e)) == PollsLeft(s) && Step(s, e).w == s.w
  {
    StepKeepsInv(s, e);
  }

  lemma {:induction false} OverOthers(me: Role, s: State, es: seq<Event>)
    requires Inv(s) && GroupOver(s)
    ensures var m := Others(me, s, es);
      Inv(m) && GroupOver(m) && (me.WorkerLoop? ==> PollsLeft(m) == PollsLeft(s) && m.w == s.w)
    decreases |es|
  {
    if es != [] {
      var n := |es| - 1;
      OverOthers(me, s, es[..n]);
      M.TheirsSnoc(Step, IsMine(me), s, es, n);
      assert es[..n + 1] == es;
      OverStep(Others(me, s, es[..n]), es[n]);
    }
  }

  lemma PollLowers(m: State, n: nat)
    requires WorkerInv(m.sh, m.w, m.h) && m.w.pc.Polling? && n <= |m.sh.queue| && (n == 0 <==> m.sh.queue == [])
    ensures PollsLeft(DoPoll(m, n)) < PollsLeft(m)
  {
    assert m.w.batch == [];
  }

  lemma DispatchLowers(m: State)
    requires WorkerInv(m.sh, m.w, m.h) && m.w.pc.Dispatching?
    ensures PollsLeft(DoDispatch(m)) < PollsLeft(m)
  {}

  lemma OwnStep(size: nat, m: State, turn: Turn)
    requires WorkerInv(m.sh, m.w, m.h) && m.sh.ctxDone && size > 0
    ensures var t := Step(m, OwnEvent(WorkerLoop, size, m, turn));
      if m.w.pc.Gone? then t.w.pc.Gone? else PollsLeft(t) < PollsLeft(m)
  {
    match m.w.pc
    case Polling => PollLowers(m, M.Min(|m.sh.queue|, size));
    case Dispatching => DispatchLowers(m);
    case CheckCtx =>
    case Gone =>
  }

  lemma WorkerTurn(size: nat, s: State, turn: Turn)
    requires Inv(s) && GroupOver(s) && size > 0
    ensures var t := Turned(WorkerLoop, size, s, turn);
      Inv(t) && GroupOver(t) && if s.w.pc.Gone? then t.w.pc.Gone? else PollsLeft(t) < PollsLeft(s)
  {
    var m := Others(WorkerLoop, s, turn.others);
    OverOthers(WorkerLoop, s, turn.others);
    OverStep(m, OwnEvent(WorkerLoop, size, m, turn));
    OwnStep(size, m, turn);
  }

  lemma OverAt(at: nat -> State, size: nat, before: seq<Event>, sched: nat -> Turn, k: nat)
    requires Follows(at, WorkerLoop, size, Run(before), sched) && GroupOver(at(k)) && size > 0
    ensures GroupOver(at(k + 1))
    ensures if at(k).w.pc.Gone? then at(k + 1).w.pc.Gone? else PollsLeft(at(k + 1)) < PollsLeft(at(k))
  {
    TraceInv(at, WorkerLoop, size, before, sched, k);
    NextTurn(at, WorkerLoop, size, Run(before), sched, k);
    WorkerTurn(size, at(k), sched(k));
  }

  /** Once sarama's group is closed the dispatch worker is gone within PollsLeft of its steps. */
  lemma {:induction false} WorkerEndsWithin(at: nat -> State, size: nat, before: seq<Event>, sched: nat -> Turn, k: nat, n: nat)
    requires Follows(at, WorkerLoop, size, Run(before), sched) && GroupOver(at(k)) && size > 0
    requires PollsLeft(at(k)) <= n || at(k).w.pc.Gone?
    ensures at(k + n).w.pc.Gone?
    decreases n
  {
    if n > 0 {
      OverAt(at, size, before, sched, k);
      WorkerEndsWithin(at, size, before, sched, k + 1, n - 1);
    } else {
      assert !at(k).w.pc.Gone? ==> PollsLeft(at(k)) > 0;
    }
  }

  // ---- the shutdown ends in time once the worker is gone ----

  predicate Ending(s: State) { GroupOver(s) && s.w.pc.Gone? }

  lemma EndingStep(s: State, e: Event)
    requires Ending(s)
    ensures Ending(Step(s, e)) && (!e.SyncNext? ==> Step(s, e).sh.sync == s.sh.sync)
  {}

  lemma {:induction false} EndingOthers(s: State, es: seq<Event>)
    requires Ending(s)
    ensures var m := Others(Subscriber, s, es); Ending(m) && m.sh.sync == s.sh.sync
    decreases |es|
  {
    if es != [] {
      var n := |es| - 1;
      EndingOthers(s, es[..n]);
      M.TheirsSnoc(Step, IsMine(Subscriber), s, es, n);
      assert es[..n + 1] == es;
      EndingStep(Others(Subscriber, s, es[..n]), es[n]);
    }
  }

  lemma EndingAt(at: nat -> State, size: nat, base: State, sched: nat -> Turn, k: nat)
    requires Follows(at, Subscriber, size, base, sched) && Ending(at(k))
    ensures Ending(at(k + 1)) && !at(k + 1).sh.sync.GroupClosed?
    ensures at(k).sh.sync.GroupClosed? || at(k + 1).sh.sync.Finished?
  {
    NextTurn(at, Subscriber, size, base, sched, k);
    EndingOthers(at(k), sched(k).others);
    EndingStep(Others(Subscriber, at(k), sched(k).others), SyncNext);
  }

  /** With the group closed and the worker gone the shutdown has finished two steps later, or any number more. */
  lemma {:induction false} SubscriberEndsBy(at: nat -> State, size: nat, base: State, sched: nat -> Turn, k: nat, m: nat)
    requires Follows(at, Subscriber, size, base, sched) && Ending(at(k)) && m >= k + 2
    ensures at(m).sh.sync.Finished?
    decreases m - k
  {
    EndingAt(at, size, base, sched, k);
    if m == k + 2 {
      EndingAt(at, size, base, sched, k + 1);
    } else {
      SubscriberEndsBy(at, size, base, sched, k + 1, m);
    }
  }

  // ---- dispatch in time ----

  /** Own steps until `target` enqueued messages are dispatched. */
  function StepsToDispatch(s: State, target: nat): nat {
    var held := |s.h.dispatched| + |s.w.batch|;
    if |s.h.dispatched| >= target then 0
    else (if held >= target then target - |s.h.dispatched| else |s.w.batch| + 2 * (target - held)) + if s.w.pc.CheckCtx? then 1 else 0
  }

  /** The worker has not seen its last empty poll. */
  predicate Staying(m: State) { !m.w.pc.Gone? && !(m.w.pc.CheckCtx? && m.sh.ctxDone) }

  lemma DispatchGrows(s: State, e: Event)
    ensures s.h.enqueued <= Step(s, e).h.enqueued && s.h.dispatched <= Step(s, e).h.dispatched
    ensures !Mine(WorkerLoop, e) ==> Kept(WorkerLoop, s, Step(s, e))
  {}

  lemma {:induction false} OthersDispatchNothing(s: State, es: seq<Event>)
    ensures var m := Others(WorkerLoop, s, es); Kept(WorkerLoop, s, m) && s.h.enqueued <= m.h.enqueued
    decreases |es|
  {
    if es != [] {
      var n := |es| - 1;
      OthersDispatchNothing(s, es[..n]);
      M.TheirsSnoc(Step, IsMine(WorkerLoop), s, es, n);
      assert es[..n + 1] == es;
      DispatchGrows(Others(WorkerLoop, s, es[..n]), es[n]);
    }
  }

  lemma DispatchStep(size: nat, m: State, turn: Turn, target: nat)
    requires WorkerInv(m.sh, m.w, m.h) && Staying(m) && size > 0 && |m.h.dispatched| < target <= |m.h.enqueued|
    ensures var t := Step(m, OwnEvent(WorkerLoop, size, m, turn));
      !t.w.pc.Gone? && !t.w.pc.CheckCtx? && StepsToDispatch(t, target) < StepsToDispatch(m, target)
  {
    assert |m.h.enqueued| == |m.h.dispatched| + |m.w.batch| + |m.sh.queue|;
    match m.w.pc
    case Polling =>
    case Dispatching =>
    case CheckCtx =>
    case Gone =>
  }

  lemma DispatchTurn(at: nat -> State, size: nat, before: seq<Event>, sched: nat -> Turn, k: nat, target: nat)
    requires Follows(at, WorkerLoop, size, Run(before), sched) && size > 0 && target <= |at(k).h.enqueued|
    requires |at(k).h.dispatched| < target ==> Staying(Others(WorkerLoop, at(k), sched(k).others))
    ensures at(k).h.enqueued <= at(k + 1).h.enqueued && at(k).h.dispatched <= at(k + 1).h.dispatched
    ensures |at(k).h.dispatched| < target ==>
      !at(k + 1).w.pc.Gone? && !at(k + 1).w.pc.CheckCtx? && StepsToDispatch(at(k + 1), target) < StepsToDispatch(at(k), target)
  {
    var m := Others(WorkerLoop, at(k), sched(k).others);
    TraceWorkerInv(at, size, before, sched, k);
    OthersDispatchNothing(at(k), sched(k).others);
    NextTurn(at, WorkerLoop, size, Run(before), sched, k);
    DispatchGrows(m, OwnEvent(WorkerLoop, size, m, sched(k)));
    if |at(k).h.dispatched| < target { DispatchStep(size, m, sched(k), target); }
  }

  lemma TraceWorkerInv(at: nat -> State, size: nat, before: seq<Event>, sched: nat -> Turn, k: nat)
    requires Follows(at, WorkerLoop, size, Run(before), sched)
    ensures var m := Others(WorkerLoop, at(k), sched(k).others); WorkerInv(m.sh, m.w, m.h) && WorkerInv(at(k).sh, at(k).w, at(k).h)
  {
    TraceInv(at, WorkerLoop, size, before, sched, k);
    RunFromKeepsInv(at(k), M.Theirs(IsMine(WorkerLoop), sched(k).others));
  }

  lemma {:induction false} DispatchesCount(at: nat -> State, size: nat, before: seq<Event>, sched: nat -> Turn, k: nat, n: nat, target: nat)
    requires Follows(at, WorkerLoop, size, Run(before), sched) && size > 0 && target <= |at(k).h.enqueued|
    requires StepsToDispatch(at(k), target) <= n
    requires |at(k).h.dispatched| < target ==> Staying(Others(WorkerLoop, at(k), sched(k).others))
    ensures |at(k + n).h.dispatched| >= target && at(k).h.enqueued <= at(k + n).h.enqueued
    decreases n
  {
    if n > 0 {
      DispatchTurn(at, size, before, sched, k, target);
      OthersDispatchNothing(at(k + 1), sched(k + 1).others);
      DispatchesCount(at, size, before, sched, k + 1, n - 1, target);
    }
  }

  function DispatchBound(s: State): nat { 2 * |s.sh.queue| + |s.w.batch| + 1 }

  /** Dispatch.  Unless the worker is past its last empty poll, everything enqueued so far reaches the handler, in
      order, within two of its steps for each queued message and one for each in its buffer, and one more. */
  lemma DispatchesWithin(at: nat -> State, size: nat, before: seq<Event>, sched: nat -> Turn, k: nat, m: nat)
    requires Follows(at, WorkerLoop, size, Run(before), sched) && size > 0 && m >= k + DispatchBound(at(k))
    requires Staying(Others(WorkerLoop, at(k), sched(k).others))
    ensures at(k).h.enqueued <= at(m).h.dispatched
  {
    TraceWorkerInv(at, size, before, sched, k);
    assert |at(k).h.enqueued| == |at(k).h.dispatched| + |at(k).w.batch| + |at(k).sh.queue|;
    DispatchesCount(at, size, before, sched, k, m - k, |at(k).h.enqueued|);
    TraceWorkerInv(at, size, before, sched, m);
    assert at(m).h.enqueued == at(m).h.dispatched + (at(m).w.batch + at(m).sh.queue);
  }

  /** A worker that is gone dispatches nothing more. */
  lemma {:induction false} GoneDispatchesNothing(at: nat -> State, size: nat, base: State, sched: nat -> Turn, k: nat, n: nat)
    requires Follows(at, WorkerLoop, size, base, sched) && at(k).w.pc.Gone?
    ensures at(k + n).w.pc.Gone? && at(k + n).h.dispatched == at(k).h.dispatched
    decreases n
  {
    if n > 0 {
      OthersDispatchNothing(at(k), sched(k).others);
      NextTurn(at, WorkerLoop, size, base, sched, k);
      GoneDispatchesNothing(at, size, base, sched, k + 1, n - 1);
    }
  }

  // ---- a message is taken, enqueued and marked ----

  lemma {:induction false} OthersKeepMine(me: Role, s: State, es: seq<Event>)
    requires me.ClaimLoop? && me.c < |s.claims|
    ensures var m := Others(me, s, es);
      me.c < |m.claims| && m.claims[me.c].(mark := 0) == s.claims[me.c].(mark := 0) && m.claims[me.c].mark >= s.claims[me.c].mark
    decreases |es|
  {
    if es != [] {
      var n := |es| - 1;
      OthersKeepMine(me, s, es[..n]);
      M.TheirsSnoc(Step, IsMine(me), s, es, n);
      assert es[..n + 1] == es;
      var m := Others(me, s, es[..n]);
      if !Mine(me, es[n]) {
        OthersLeaveClaim(m, es[n], me.c);
        T.MarkStep(m, es[n], me.c);
      }
    }
  }

  /** The claim as the loop's k-th own step finds and leaves it. */
  lemma ClaimTurn(c: nat, at: nat -> State, size: nat, base: State, sched: nat -> Turn, k: nat)
    requires Follows(at, ClaimLoop(c), size, base, sched) && c < |at(k).claims|
    ensures var m := Others(ClaimLoop(c), at(k), sched(k).others);
      && c < |m.claims| && at(k + 1) == Step(m, ClaimEvent(c, m, sched(k)))
      && var cl, cl' := at(k).claims[c], m.claims[c];
         cl'.session == cl.session && cl'.start == cl.start && cl'.received == cl.received && cl'.sent == cl.sent && cl'.pc == cl.pc
  {
    OthersKeepMine(ClaimLoop(c), at(k), sched(k).others);
    NextTurn(at, ClaimLoop(c), size, base, sched, k);
    var m := Others(ClaimLoop(c), at(k), sched(k).others);
    var a, b := m.claims[c].(mark := 0), at(k).claims[c].(mark := 0);
    assert a.session == b.session && a.start == b.start && a.received == b.received && a.sent == b.sent && a.pc == b.pc;
  }

  /** Steps k and k + 1, k + 2: a message is taken and both contexts are found open. */
  lemma TakenAndChecked(c: nat, at: nat -> State, size: nat, base: State, sched: nat -> Turn, k: nat)
    requires Follows(at, ClaimLoop(c), size, base, sched) && At(at(k), c, Ranging) && !sched(k).closed
    requires Deliverable(at(k).claims[c], sched(k).offset)
    requires at(k).claims[c].session !in Others(ClaimLoop(c), at(k + 1), sched(k + 1).others).sh.ended
    requires !Others(ClaimLoop(c), at(k + 2), sched(k + 2).others).sh.ctxDone
    ensures At(at(k + 3), c, Trying) && at(k + 3).claims[c].sent == at(k).claims[c].sent
    ensures at(k + 3).claims[c].received == at(k).claims[c].received + [sched(k).offset]
  {
    ClaimTurn(c, at, size, base, sched, k);
    ClaimTurn(c, at, size, base, sched, k + 1);
    ClaimTurn(c, at, size, base, sched, k + 2);
  }

  /** Steps k and k + 1: there is room in the open queue, and the message is marked. */
  lemma EnqueuedAndMarked(c: nat, at: nat -> State, size: nat, base: State, sched: nat -> Turn, k: nat)
    requires Follows(at, ClaimLoop(c), size, base, sched) && At(at(k), c, Trying) && at(k).claims[c].received != []
    requires !sched(k).full && !Others(ClaimLoop(c), at(k), sched(k).others).sh.sealed
    ensures var offset := at(k).claims[c].received[|at(k).claims[c].received| - 1];
      && At(at(k + 2), c, Ranging) && at(k + 2).claims[c].received == at(k).claims[c].received
      && at(k + 2).claims[c].sent == at(k).claims[c].sent + 1 && at(k + 2).claims[c].mark >= offset + 1
      && at(k + 1).h.enqueued == Others(ClaimLoop(c), at(k), sched(k).others).h.enqueued + [Message(c, offset)]
  {
    ClaimTurn(c, at, size, base, sched, k);
    ClaimTurn(c, at, size, base, sched, k + 1);
  }

  /** A message that the claim's channel yields is, five of the loop's steps later, enqueued and marked, and the loop
      is back at its channel, if the session is open at the first check and the group at the second and the queue
      has room and is open at the try. */
  lemma ClaimTakesMessage(c: nat, at: nat -> State, size: nat, base: State, sched: nat -> Turn, k: nat)
    requires Follows(at, ClaimLoop(c), size, base, sched) && At(at(k), c, Ranging) && !sched(k).closed
    requires Deliverable(at(k).claims[c], sched(k).offset)
    requires at(k).claims[c].session !in Others(ClaimLoop(c), at(k + 1), sched(k + 1).others).sh.ended
    requires !Others(ClaimLoop(c), at(k + 2), sched(k + 2).others).sh.ctxDone
    requires !sched(k + 3).full && !Others(ClaimLoop(c), at(k + 3), sched(k + 3).others).sh.sealed
    ensures At(at(k + 5), c, Ranging) && at(k + 5).claims[c].sent == at(k).claims[c].sent + 1
    ensures at(k + 5).claims[c].received == at(k).claims[c].received + [sched(k).offset]
    ensures at(k + 5).claims[c].mark >= sched(k).offset + 1
    ensures at(k + 4).h.enqueued == Others(ClaimLoop(c), at(k + 3), sched(k + 3).others).h.enqueued + [Message(c, sched(k).offset)]
  {
    TakenAndChecked(c, at, size, base, sched, k);
    EnqueuedAndMarked(c, at, size, base, sched, k + 3);
  }
}
