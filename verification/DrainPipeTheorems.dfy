/** What the drain pipe promises, for every policy and every interleaving. */
module DrainPipeTheorems {
  import C = Channel
  import M = Machine
  import opened DrainPipe

  /** Conservation and order: nothing accepted is lost, duplicated or reordered on its way
      through queue and buffer, and the send attempts are a prefix of the accepted
      messages with each of them repeated one or more times. */
  lemma AtLeastOnceInOrder(p: Policy, log: seq<Event>)
    ensures var s := Run(p, log);
      && s.h.accepted == s.h.delivered + s.w.batch + s.q.items
      && exists k: nat :: |s.h.delivered| <= k <= |s.h.delivered| + 1 && k <= |s.h.accepted|
           && C.Stutters(Sent(s.h.attempts), s.h.accepted[..k])
  {
    RunIsGood(p, log);
    var s := Run(p, log);
    assert s.h.delivered + (s.w.batch + s.q.items) == s.h.delivered + s.w.batch + s.q.items;
    var k := |s.h.delivered| + if s.w.tried then 1 else 0;
    assert s.h.accepted[..k] == s.h.delivered + (if s.w.tried then [s.w.batch[0]] else []);
  }

  /** A worker that left through the "dequeue returned 0" exit: its buffer is used up. */
  predicate LeftClean(s: State) { s.w.pc.Exited? && s.w.batch == [] }

  lemma CleanStep(p: Policy, s: State, e: Event)
    requires WorkerInv(p, s) && LeftClean(s)
    ensures var t := Step(p, s, e); LeftClean(t) && t.h.accepted == s.h.accepted && t.h.delivered == s.h.delivered
  {}

  lemma {:induction false} CleanStays(p: Policy, s: State, more: seq<Event>)
    requires Inv(p, s) && LeftClean(s)
    ensures var t := RunFrom(p, s, more); LeftClean(t) && t.h.accepted == s.h.accepted && t.h.delivered == s.h.delivered
    decreases |more|
  {
    if more != [] {
      StepKeepsInv(p, s, more[0]);
      CleanStep(p, s, more[0]);
      CleanStays(p, Step(p, s, more[0]), more[1..]);
    }
  }

  /** Clean shutdown is lossless and final: everything accepted is delivered, and whatever
      happens afterwards nothing more is accepted, not even for a Publish call that passed
      the draining check before Close. */
  lemma CleanShutdownIsLossless(p: Policy, log: seq<Event>, more: seq<Event>)
    requires LeftClean(Run(p, log))
    ensures var s, t := Run(p, log), Run(p, log + more);
      t.h.accepted == s.h.accepted == s.h.delivered == t.h.delivered && t.q.items == []
  {
    RunIsGood(p, log);
    RunIsGood(p, log + more);
    M.RunFromAppend(Stepper(p), Init, log, more);
    CleanStays(p, Run(p, log), more);
  }

  /** A worker that has exited lost messages exactly when it left in the middle of its buffer, and
      then only with draining set or the context cancelled; RabbitMQ needs draining, MQTT has also
      read the link as down. */
  lemma NothingDroppedBeforeShutdown(p: Policy, log: seq<Event>)
    requires Run(p, log).w.pc.Exited?
    ensures var s := Run(p, log);
      && (s.h.delivered != s.h.accepted <==> s.w.batch != [])
      && (s.h.delivered != s.h.accepted ==> s.f.draining || s.f.ctxDone)
      && (s.h.delivered != s.h.accepted && p.Rabbit? ==> s.f.draining)
      && (s.h.delivered != s.h.accepted && p.Mqtt? ==> !s.w.linkSeen)
  {
    RunIsGood(p, log);
    var s := Run(p, log);
    assert |s.h.accepted| == |s.h.delivered| + |s.w.batch| + |s.q.items|;
  }

  /** If Close took the drained branch no attempt, past or future, is made on a client that was torn down. */
  lemma NoSendAfterDrainedTeardown(p: Policy, log: seq<Event>)
    ensures var s := Run(p, log);
      forall i :: 0 <= i < |s.h.attempts| && s.h.attempts[i].late ==> s.f.torn && !DrainedClose(s.close)
  {
    RunIsGood(p, log);
  }

  // ---- who is refused while draining ----

  /** `ids` name distinct calls of `before`, none of them in `after`, and `late` are their messages. */
  predicate LateFrom(late: seq<Message>, ids: seq<nat>, before: map<nat, Message>, after: map<nat, Message>) {
    && |ids| == |late|
    && (forall i, j :: 0 <= i < j < |ids| ==> ids[i] != ids[j])
    && (forall i :: 0 <= i < |ids| ==> ids[i] in before && ids[i] !in after && late[i] == before[ids[i]])
  }

  lemma NoNewCall(p: Policy, s: State, e: Event)
    requires (p.Mqtt? || p.NatsCore? || p.JetStream?) && s.f.draining
    ensures var t := Step(p, s, e); t.f.draining && forall id :: id in t.calls ==> id in s.calls && t.calls[id] == s.calls[id]
  {}

  lemma AcceptedByCall(p: Policy, s: State, e: Event)
    ensures var t := Step(p, s, e);
      t.h.accepted == s.h.accepted ||
      (e.PublishEnqueue? && e.id in s.calls && t.calls == s.calls - {e.id} && t.h.accepted == s.h.accepted + [s.calls[e.id]])
  {}

  /** The MQTT and NATS clients: once draining is set no Publish call passes its check any more, and whatever is
      accepted after that comes from a call that was already past it, each at most once. */
  lemma {:induction false} RefusedWhileDraining(p: Policy, s: State, log: seq<Event>) returns (late: seq<Message>, ids: seq<nat>)
    requires (p.Mqtt? || p.NatsCore? || p.JetStream?) && s.f.draining
    ensures var t := RunFrom(p, s, log);
      && (forall id :: id in t.calls ==> id in s.calls && t.calls[id] == s.calls[id])
      && t.h.accepted == s.h.accepted + late && LateFrom(late, ids, s.calls, t.calls)
    decreases |log|
  {
    if log == [] {
      late, ids := [], [];
    } else {
      var s1 := Step(p, s, log[0]);
      NoNewCall(p, s, log[0]);
      AcceptedByCall(p, s, log[0]);
      late, ids := RefusedWhileDraining(p, s1, log[1..]);
      if s1.h.accepted != s.h.accepted {
        var id := log[0].id;
        assert s.h.accepted + [s.calls[id]] + late == s.h.accepted + ([s.calls[id]] + late);
        late, ids := [s.calls[id]] + late, [id] + ids;
      }
    }
  }

  /** The RabbitMQ and RocketMQ producers look at the queue only: while it is open a Publish is accepted,
      draining or not. */
  lemma AcceptedWhileDraining(p: Policy, s: State, id: nat, m: Message)
    requires (p.Rabbit? || p.Rocket?) && !s.q.sealed && id !in s.calls
    ensures RunFrom(p, s, [PublishCheck(id, m)] + ([PublishEnqueue(id)] + [])).h.accepted == s.h.accepted + [m]
  {
    M.RunCons(Stepper(p), s, PublishCheck(id, m), [PublishEnqueue(id)] + []);
    M.RunCons(Stepper(p), Step(p, s, PublishCheck(id, m)), PublishEnqueue(id), []);
  }

  // ---- RocketMQ's switch to synchronous sends ----

  /** Per attempt of `log`: was it made with draining set and without drainPublish? */
  function UnforcedWhileDraining(p: Policy, s: State, log: seq<Event>): nat
    decreases |log|
  {
    if log == [] then 0
    else (if log[0].Send? && DoSend(s) != s && s.f.draining && !s.w.forced then 1 else 0)
         + UnforcedWhileDraining(p, Step(p, s, log[0]), log[1..])
  }

  /** Budget of such attempts: one if the worker has chosen its mode and not sent yet, or draining is unset. */
  function Budget(s: State): nat {
    if !s.f.draining || (s.w.pc.Sending? && !s.w.forced) then 1 else 0
  }

  lemma RocketBudgetStep(s: State, e: Event)
    requires Inv(Rocket, s)
    ensures var spent := e.Send? && DoSend(s) != s && s.f.draining && !s.w.forced;
      Budget(Step(Rocket, s, e)) + (if spent then 1 else 0) <= Budget(s)
  {
    match e
    case Dequeue(n) =>
    case Load =>
    case Answer(r) =>
    case _ =>
  }

  lemma {:induction false} RocketBudget(s: State, log: seq<Event>)
    requires Inv(Rocket, s)
    ensures UnforcedWhileDraining(Rocket, s, log) <= Budget(s)
    decreases |log|
  {
    if log != [] {
      StepKeepsInv(Rocket, s, log[0]);
      RocketBudgetStep(s, log[0]);
      RocketBudget(Step(Rocket, s, log[0]), log[1..]);
    }
  }

  /** After Close sets draining, at most the one send whose mode was already chosen is not synchronous. */
  lemma RocketForcesDrainSends(log: seq<Event>)
    ensures UnforcedWhileDraining(Rocket, Init, log) <= 1
  {
    RocketBudget(Init, log);
  }

  lemma UnforcedCons(s: State, e: Event, log: seq<Event>)
    ensures UnforcedWhileDraining(Rocket, s, [e] + log)
         == (if e.Send? && DoSend(s) != s && s.f.draining && !s.w.forced then 1 else 0)
            + UnforcedWhileDraining(Rocket, Step(Rocket, s, e), log)
  {
    assert ([e] + log)[1..] == log;
  }

  /** A worker that has chosen its mode when Close sets draining still makes that one send. */
  lemma ChosenBeforeClose(s: State)
    requires s.w.pc.Sending? && s.w.batch != [] && !s.w.forced && !s.f.draining
    ensures UnforcedWhileDraining(Rocket, s, [CloseCall] + ([Send] + [])) == 1
  {
    var s1 := s.(f := s.f.(draining := true), close := Swapped);
    UnforcedCons(s, CloseCall, [Send] + []);
    assert Step(Rocket, s, CloseCall) == s1;
    UnforcedCons(s1, Send, []);
    assert |DoSend(s1).h.attempts| == |s1.h.attempts| + 1;
  }

  /** One message in the queue: dequeued, its mode chosen, and only then Close. */
  lemma DequeuedBeforeClose(s: State, m: Message)
    requires s == Init.(q := Queue([m], false), h := History([m], [], []))
    ensures UnforcedWhileDraining(Rocket, s, [Dequeue(1)] + ([Load] + ([CloseCall] + ([Send] + [])))) == 1
  {
    var rest := [CloseCall] + ([Send] + []);
    var s1 := s.(q := Queue([], false), w := Worker(LoadMode, [m], false, false, false));
    var s2 := s1.(w := Worker(Sending, [m], false, false, false));
    UnforcedCons(s, Dequeue(1), [Load] + rest);
    assert [m][1..] == [] && [m][..1] == [m];
    assert Step(Rocket, s, Dequeue(1)) == s1;
    UnforcedCons(s1, Load, rest);
    assert Step(Rocket, s1, Load) == s2;
    ChosenBeforeClose(s2);
  }

  /** The bound is met by one message, published and dequeued, its mode chosen just before Close. */
  lemma RocketBoundIsTight()
    ensures exists log :: UnforcedWhileDraining(Rocket, Init, log) == 1
  {
    var m := Message("t", "x");
    var rest := [Dequeue(1)] + ([Load] + ([CloseCall] + ([Send] + [])));
    var s1 := Init.(calls := map[0 := m]);
    var s2 := Init.(q := Queue([m], false), h := History([m], [], []));
    UnforcedCons(Init, PublishCheck(0, m), [PublishEnqueue(0)] + rest);
    assert Step(Rocket, Init, PublishCheck(0, m)) == s1;
    UnforcedCons(s1, PublishEnqueue(0), rest);
    assert s1.calls - {0} == map[] && [] + [m] == [m];
    assert Step(Rocket, s1, PublishEnqueue(0)) == s2;
    DequeuedBeforeClose(s2, m);
  }

  // ---- NATS after its context is cancelled ----

  /** Sends a NATS worker with a cancelled context can still start. */
  function SendsLeft(s: State): nat { if s.w.pc.LoadLink? || s.w.pc.Sending? then 1 else 0 }

  lemma CancelledNatsStep(p: Policy, s: State, e: Event)
    requires p.Nats() && Inv(p, s) && s.f.ctxDone
    ensures var t := Step(p, s, e);
      t.f.ctxDone && |t.h.attempts| + SendsLeft(t) <= |s.h.attempts| + SendsLeft(s)
    ensures s.w.pc.LoadCtxFirst? && e.Load? ==> Step(p, s, e).w.pc.Exited?
  {
    match e
    case Load => CancelledNatsLoad(p, s);
    case Dequeue(n) =>
    case Send =>
    case Answer(r) =>
    case PublishEnqueue(id) =>
    case _ => assert Step(p, s, e).w == s.w && Step(p, s, e).h == s.h;
  }

  lemma CancelledNatsLoad(p: Policy, s: State)
    requires p.Nats() && Inv(p, s) && s.f.ctxDone
    ensures DoLoad(p, s).h == s.h && DoLoad(p, s).f == s.f && SendsLeft(DoLoad(p, s)) <= SendsLeft(s)
    ensures s.w.pc.LoadCtxFirst? ==> DoLoad(p, s).w.pc.Exited?
  {}

  /** Once its context is cancelled a NATS worker starts at most the one send it was already past the
      context check for, whatever is left in buffer and queue, and exits at the next head of its retry loop. */
  lemma {:induction false} CancelledNatsSendsAtMostOnce(p: Policy, s: State, log: seq<Event>)
    requires p.Nats() && Inv(p, s) && s.f.ctxDone
    ensures var t := RunFrom(p, s, log);
      && |t.h.attempts| + SendsLeft(t) <= |s.h.attempts| + SendsLeft(s) <= |s.h.attempts| + 1
      && (t.w.pc.LoadCtxFirst? ==> Step(p, t, Load).w.pc.Exited?)
    decreases |log|
  {
    if log == [] {
      CancelledNatsStep(p, s, Load);
    } else {
      StepKeepsInv(p, s, log[0]);
      CancelledNatsStep(p, s, log[0]);
      CancelledNatsSendsAtMostOnce(p, Step(p, s, log[0]), log[1..]);
    }
  }

  // ---- drain termination ----

  /** The conditions under which a worker must come to its end. */
  ghost predicate Doomed(p: Policy, s: State) {
    && s.q.sealed
    && match p
       case Mqtt => (s.f.draining || s.f.ctxDone) && !s.f.connected
       case NatsCore => s.f.ctxDone || (s.f.draining && !s.f.connected)
       case JetStream => s.f.ctxDone || (s.f.draining && !s.f.connected)
       case Rabbit => s.f.draining
       case Rocket => s.f.draining
  }

  /** Worker steps left before the next message or the exit. */
  function Rank(p: Policy, s: State): nat {
    match s.w.pc
    case Exited => 0
    case Dequeuing => 1
    case Sending => 7
    case Awaiting => 6
    case LoadMode => 8
    case LoadDrainingOnError(_) => 5
    case LoadLink => if p.Mqtt? then 4 else 8
    case LoadCtx => 3
    case LoadLinkAgain => if p.Mqtt? then 1 else 2
    case LoadCtxFirst => if s.f.ctxDone then 1 else 9
    case LoadDraining => if p.Mqtt? then (if s.f.draining then 2 else 5) else if p.Nats() then 4 else 1
  }

  function Work(p: Policy, s: State): nat {
    20 * |s.q.items| + 10 * |s.w.batch| + Rank(p, s)
  }

  lemma LoadLowersWork(p: Policy, s: State)
    requires Inv(p, s) && Doomed(p, s) && IsLoad(s.w.pc)
    ensures Rank(p, DoLoad(p, s)) < Rank(p, s)
  {
    match p
    case Mqtt =>
    case Rabbit =>
    case Rocket =>
    case _ =>
  }

  lemma DequeueLowersWork(p: Policy, s: State, n: nat)
    requires WorkerInv(p, s)
    ensures DoDequeue(p, s, n) == s || Work(p, DoDequeue(p, s, n)) < Work(p, s)
  {
    assert Rank(p, DoDequeue(p, s, n)) <= 9;
  }

  lemma AnswerLowersWork(p: Policy, s: State, r: Reply)
    requires Doomed(p, s)
    ensures DoAnswer(p, s, r) == s || Work(p, DoAnswer(p, s, r)) < Work(p, s)
  {
    if s.w.batch != [] && s.w.pc.Awaiting? && !r.Ok? { assert Rank(p, DoAnswer(p, s, r)) <= 5; }
  }

  lemma OthersKeepWork(p: Policy, s: State, e: Event)
    requires Inv(p, s) && Doomed(p, s) && !IsWork(e)
    ensures Work(p, Step(p, s, e)) <= Work(p, s)
  {
    var s' := Step(p, s, e);
    assert s'.w == s.w && s'.q.items == s.q.items;
    assert (s.f.draining ==> s'.f.draining) && (s.f.ctxDone ==> s'.f.ctxDone);
    assert Rank(p, s') <= Rank(p, s);
  }

  /** Under Doomed every effective step of the worker lowers Work and no other step raises it. */
  lemma DoomedStepLowersWork(p: Policy, s: State, e: Event)
    requires Inv(p, s) && Doomed(p, s)
    ensures Work(p, Step(p, s, e)) <= Work(p, s)
    ensures IsWork(e) && Step(p, s, e) != s ==> Work(p, Step(p, s, e)) < Work(p, s)
  {
    match e
    case Load => if IsLoad(s.w.pc) { LoadLowersWork(p, s); }
    case Dequeue(n) => DequeueLowersWork(p, s, n);
    case Send => assert DoSend(s) == s || Rank(p, DoSend(s)) < Rank(p, s);
    case Answer(r) => AnswerLowersWork(p, s, r);
    case _ => OthersKeepWork(p, s, e);
  }

  /** The worker's next step; never blocked under Doomed. */
  function NextWork(s: State): Event {
    if s.w.pc.Dequeuing? then Dequeue(|s.q.items|)
    else if s.w.pc.Sending? then Send
    else if s.w.pc.Awaiting? then Answer(Failed)
    else Load
  }

  lemma DoomedWorkerIsNeverBlocked(p: Policy, s: State)
    requires Inv(p, s) && Doomed(p, s) && !s.w.pc.Exited?
    ensures IsWork(NextWork(s)) && Step(p, s, NextWork(s)) != s
  {}

  /** Number of steps of `log` in which the worker moved. */
  function Moves(p: Policy, s: State, log: seq<Event>): nat
    decreases |log|
  {
    if log == [] then 0
    else (if IsWork(log[0]) && Step(p, s, log[0]) != s then 1 else 0) + Moves(p, Step(p, s, log[0]), log[1..])
  }

  ghost predicate DoomedAlong(p: Policy, s: State, log: seq<Event>)
    decreases |log|
  {
    Doomed(p, s) && (log != [] ==> DoomedAlong(p, Step(p, s, log[0]), log[1..]))
  }

  /** Drain termination: while Doomed lasts the worker makes at most Work(s) moves, whatever the
      other threads do, and it stops only by exiting. */
  lemma {:induction false} DrainTerminates(p: Policy, s: State, log: seq<Event>)
    requires Inv(p, s) && DoomedAlong(p, s, log)
    ensures var t := RunFrom(p, s, log);
      && Moves(p, s, log) + Work(p, t) <= Work(p, s)
      && (t.w.pc.Exited? || Step(p, t, NextWork(t)) != t)
    decreases |log|
  {
    if log == [] {
      if !s.w.pc.Exited? { DoomedWorkerIsNeverBlocked(p, s); }
    } else {
      StepKeepsInv(p, s, log[0]);
      DoomedStepLowersWork(p, s, log[0]);
      DrainTerminates(p, Step(p, s, log[0]), log[1..]);
    }
  }

  /** For RabbitMQ and RocketMQ draining and a sealed queue suffice, for NATS a cancelled context:
      those conditions last by themselves. */
  ghost predicate DoomedForGood(p: Policy, s: State) {
    s.q.sealed && match p
      case Mqtt => false
      case NatsCore => s.f.ctxDone
      case JetStream => s.f.ctxDone
      case Rabbit => s.f.draining
      case Rocket => s.f.draining
  }

  lemma {:induction false} ForGoodLasts(p: Policy, s: State, log: seq<Event>)
    requires DoomedForGood(p, s)
    ensures DoomedAlong(p, s, log)
    decreases |log|
  {
    if log != [] {
      ForGoodLasts(p, Step(p, s, log[0]), log[1..]);
    }
  }

  lemma PipesTerminateOnceDraining(p: Policy, before: seq<Event>, log: seq<Event>)
    requires DoomedForGood(p, Run(p, before))
    ensures Moves(p, Run(p, before), log) <= Work(p, Run(p, before))
    ensures var t := Run(p, before + log); t.w.pc.Exited? || Step(p, t, NextWork(t)) != t
  {
    RunIsGood(p, before);
    ForGoodLasts(p, Run(p, before), log);
    DrainTerminates(p, Run(p, before), log);
    M.RunFromAppend(Stepper(p), Init, before, log);
  }
}
