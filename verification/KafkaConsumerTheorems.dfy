/** What the consumer group promises over every run of its goroutines. */
module KafkaConsumerTheorems {
  import M = Machine
  import opened KafkaConsumer

  /** Offset safety.  Per claim the enqueued messages are an in-order prefix of what the claim
      received, and the mark covers exactly them: a received message lies below the mark only if
      it was enqueued, and every enqueued one does, save the message whose MarkMessage is due. */
  lemma MarksCoverExactlyTheEnqueued(log: seq<Event>, c: nat)
    requires c < |Run(log).claims|
    ensures var s := Run(log); var cl := s.claims[c];
      && cl.sent <= |cl.received| && Of(s.h.enqueued, c) == cl.received[..cl.sent]
      && cl.mark <= MarkAfter(cl, cl.sent)
      && (forall k :: 0 <= k < |cl.received| && cl.received[k] < cl.mark ==> k < cl.sent)
      && (forall k :: 0 <= k < cl.sent && cl.received[k] >= cl.mark ==> k == cl.sent - 1 && cl.pc.Marking?)
  {
    RunInv(log);
    var cl := Run(log).claims[c];
    assert ClaimInv(cl);
  }

  /** Nor does a mark cover a message still to come: whatever the claim can receive next is at or above it. */
  lemma MarksCoverNothingToCome(log: seq<Event>, c: nat, offset: int)
    requires c < |Run(log).claims| && Deliverable(Run(log).claims[c], offset)
    requires Run(log).claims[c].pc.Ranging?
    ensures offset >= Run(log).claims[c].mark
  {
    RunInv(log);
    assert ClaimInv(Run(log).claims[c]);
  }

  /** Within a session marks only grow and claims keep their session. */
  lemma {:induction false} MarksOnlyGrow(s: State, log: seq<Event>, c: nat)
    requires c < |s.claims|
    ensures var t := RunFrom(s, log);
      c < |t.claims| && t.claims[c].mark >= s.claims[c].mark && t.claims[c].session == s.claims[c].session
    decreases |log|
  {
    if log != [] {
      MarkStep(s, log[0], c);
      MarksOnlyGrow(Step(s, log[0]), log[1..], c);
    }
  }

  lemma MarkStep(s: State, e: Event, c: nat)
    requires c < |s.claims|
    ensures var t := Step(s, e);
      c < |t.claims| && t.claims[c].mark >= s.claims[c].mark && t.claims[c].session == s.claims[c].session
  {}

  // ---- what a shutdown strands ----

  /** Once the worker is gone the undispatched messages are exactly those enqueued after the last
      time it found the queue empty, and they stay undispatched; it is gone only after cancellation. */
  lemma StrandedIsWhatFollowsTheLastEmptyPoll(log: seq<Event>)
    requires Run(log).w.pc.Gone?
    ensures var s := Run(log);
      && s.sh.ctxDone
      && s.h.emptyAt <= |s.h.enqueued|
      && s.h.dispatched == s.h.enqueued[..s.h.emptyAt]
      && s.sh.queue == s.h.enqueued[s.h.emptyAt..]
  {
    RunWorkerInv(log);
    var s := Run(log);
    assert s.h.enqueued == s.h.dispatched + s.sh.queue;
  }

  lemma RunWorkerInv(log: seq<Event>)
    ensures var s := Run(log); WorkerInv(s.sh, s.w, s.h)
  {
    RunInv(log);
  }

  // ---- when a shutdown loses nothing ----

  /** The worker has seen the queue empty for the last time, and there are messages in it. */
  predicate Strands(s: State) { (s.w.pc.CheckCtx? || s.w.pc.Gone?) && s.sh.queue != [] }

  predicate NobodyTries(claims: seq<Claim>) { forall c :: 0 <= c < |claims| ==> !claims[c].pc.Trying? }

  lemma NobodyAtTry(claims: seq<Claim>)
    ensures AtTry(claims) == {} <==> NobodyTries(claims)
  {
    if AtTry(claims) == {} {
      forall c | 0 <= c < |claims| ensures !claims[c].pc.Trying? { assert c !in AtTry(claims); }
    }
  }

  /** Cancelled, nobody about to enqueue, and nothing behind the worker's back. */
  ghost predicate Safe(s: State) { s.sh.ctxDone && NobodyTries(s.claims) && !Strands(s) }

  lemma SafeStep(s: State, e: Event)
    requires Safe(s)
    ensures Safe(Step(s, e))
  {
    match e
    case Receive(c, offset) =>
    case ChannelClosed(c) =>
    case ClaimLoad(c) =>
    case Try(c, full) => assert Step(s, e) == s;
    case Mark(c) =>
    case Ack(k) =>
    case Poll(n) =>
    case OpenClaim(session, start) =>
    case _ => assert Step(s, e).claims == s.claims;
  }

  lemma {:induction false} SafeStays(s: State, log: seq<Event>)
    requires Inv(s) && Safe(s)
    ensures Inv(RunFrom(s, log)) && Safe(RunFrom(s, log))
    decreases |log|
  {
    if log != [] {
      StepKeepsInv(s, log[0]);
      SafeStep(s, log[0]);
      SafeStays(Step(s, log[0]), log[1..]);
    }
  }

  /** A cancelled group whose queue is open. */
  ghost predicate Closing(s: State) { Inv(s) && s.sh.ctxDone && !s.sh.sealed }

  /** The worker handles its batch and then takes and handles the rest of the queue. */
  lemma {:induction false} DrainWorker(s: State) returns (log: seq<Event>)
    requires Closing(s) && (s.w.pc.Polling? || s.w.pc.Dispatching?)
    ensures var t := RunFrom(s, log); Closing(t) && t.w.pc.Polling? && t.sh.queue == [] && t.claims == s.claims
    decreases |s.sh.queue|, |s.w.batch|
  {
    if s.w.pc.Polling? && s.sh.queue == [] {
      log := [];
    } else {
      var e := if s.w.pc.Polling? then Poll(|s.sh.queue|) else Dispatch;
      StepKeepsInv(s, e);
      var rest := DrainWorker(Step(s, e));
      M.RunCons(Step, s, e, rest);
      log := [e] + rest;
    }
  }

  /** The worker is gone and has not handled everything. */
  predicate Lost(s: State) { s.w.pc.Gone? && s.h.dispatched != s.h.enqueued }

  /** With the worker gone, a claim loop that finds room in the queue enqueues what nobody will handle. */
  lemma TryLoses(s: State, c: nat)
    requires WorkerInv(s.sh, s.w, s.h) && !s.sh.sealed && s.w.pc.Gone? && At(s, c, Trying) && s.claims[c].received != []
    ensures Lost(Step(s, Try(c, false)))
  {
    var t := Step(s, Try(c, false));
    assert |t.h.enqueued| == |s.h.enqueued| + 1 && t.h.dispatched == s.h.dispatched;
    assert |s.h.enqueued| == |s.h.dispatched| + |s.w.batch| + |s.sh.queue|;
  }

  lemma TryAfterTheWorker(s: State, c: nat) returns (log: seq<Event>)
    requires Closing(s) && s.w.pc.CheckCtx? && At(s, c, Trying)
    ensures Lost(RunFrom(s, log))
  {
    StepKeepsInv(s, WorkerLoad);
    assert ClaimInv(s.claims[c]);
    TryLoses(Step(s, WorkerLoad), c);
    M.RunCons(Step, s, WorkerLoad, [Try(c, false)] + []);
    M.RunCons(Step, Step(s, WorkerLoad), Try(c, false), []);
    log := [WorkerLoad] + ([Try(c, false)] + []);
  }

  lemma PollsEmpty(s: State)
    requires Closing(s) && s.w.pc.Polling? && s.sh.queue == []
    ensures var t := Step(s, Poll(0)); Closing(t) && t.w.pc.CheckCtx? && t.claims == s.claims
  {
    StepKeepsInv(s, Poll(0));
  }

  lemma TryingCanLose(s: State, c: nat) returns (log: seq<Event>)
    requires Closing(s) && !s.w.pc.Gone? && At(s, c, Trying)
    ensures Lost(RunFrom(s, log))
  {
    if s.w.pc.CheckCtx? {
      log := TryAfterTheWorker(s, c);
    } else {
      var drain := DrainWorker(s);
      var t := RunFrom(s, drain);
      PollsEmpty(t);
      var rest := TryAfterTheWorker(Step(t, Poll(0)), c);
      M.RunCons(Step, t, Poll(0), rest);
      M.RunFromAppend(Step, s, drain, [Poll(0)] + rest);
      log := drain + ([Poll(0)] + rest);
    }
  }

  lemma StrandedIsLost(s: State)
    requires Closing(s) && s.w.pc.CheckCtx? && s.sh.queue != []
    ensures Lost(RunFrom(s, [WorkerLoad]))
  {
    M.RunCons(Step, s, WorkerLoad, []);
    assert [WorkerLoad] + [] == [WorkerLoad];
    assert |s.h.enqueued| == |s.h.dispatched| + |s.w.batch| + |s.sh.queue|;
  }

  lemma CancelNow(before: seq<Event>, after: seq<Event>)
    requires !Run(before).sh.ctxDone
    ensures var s := Step(Run(before), Cancel);
      Closing(s) && !s.w.pc.Gone? && Run(before + [Cancel] + after) == RunFrom(s, after)
  {
    RunInv(before);
    StepKeepsInv(Run(before), Cancel);
    M.RunSnoc(Step, Init, before, Cancel);
    M.RunFromAppend(Step, Init, before + [Cancel], after);
  }

  lemma SafeLosesNothing(before: seq<Event>, after: seq<Event>)
    requires !Run(before).sh.ctxDone && Safe(Step(Run(before), Cancel))
    ensures !Lost(Run(before + [Cancel] + after))
  {
    CancelNow(before, after);
    SafeStays(Step(Run(before), Cancel), after);
    var t := Run(before + [Cancel] + after);
    if t.w.pc.Gone? {
      assert t.h.dispatched + [] + [] == t.h.dispatched;
    }
  }

  lemma UnsafeCanLose(before: seq<Event>) returns (after: seq<Event>)
    requires !Run(before).sh.ctxDone && !Safe(Step(Run(before), Cancel))
    ensures Lost(Run(before + [Cancel] + after))
  {
    CancelNow(before, []);
    var s := Step(Run(before), Cancel);
    if !NobodyTries(s.claims) {
      var c: nat :| c < |s.claims| && s.claims[c].pc.Trying?;
      after := TryingCanLose(s, c);
    } else {
      after := [WorkerLoad];
      StrandedIsLost(s);
    }
    CancelNow(before, after);
  }

  /** Exactly when a shutdown loses nothing, told at the moment of cancellation.  However it goes on, a
      worker that is gone has handled every enqueued message, if and only if no claim was about to call
      TryEnqueue and the worker did not stand between an empty poll and its context check with messages
      queued since. */
  lemma ShutdownLosesNothingIff(before: seq<Event>)
    requires !Run(before).sh.ctxDone
    ensures (forall after {:trigger Run(before + [Cancel] + after)} :: !Lost(Run(before + [Cancel] + after)))
            <==> AtTry(Run(before).claims) == {} && !(Run(before).w.pc.CheckCtx? && Run(before).sh.queue != [])
  {
    RunInv(before);
    var s := Run(before);
    NobodyAtTry(s.claims);
    assert Safe(Step(s, Cancel)) <==> AtTry(s.claims) == {} && !(s.w.pc.CheckCtx? && s.sh.queue != []);
    if Safe(Step(s, Cancel)) {
      forall after {:trigger Run(before + [Cancel] + after)} | true ensures !Lost(Run(before + [Cancel] + after)) {
        SafeLosesNothing(before, after);
      }
    } else {
      var after := UnsafeCanLose(before);
    }
  }

  // ---- the bound ----

  lemma {:induction false} DistinctBound(late: seq<Message>, armed: set<nat>)
    requires OncePerArmed(late, armed)
    ensures |late| <= |armed|
    decreases |late|
  {
    if late != [] {
      var last := late[|late| - 1];
      DistinctBound(late[..|late| - 1], armed - {last.claim});
      assert last.claim in armed;
    }
  }

  lemma {:induction false} CancelIsRemembered(s: State, log: seq<Event>)
    requires s.sh.ctxDone
    ensures var t := RunFrom(s, log); t.sh.ctxDone && t.h.cancelAt == s.h.cancelAt && t.h.armed == s.h.armed
    decreases |log|
  {
    if log != [] {
      CancelIsRememberedStep(s, log[0]);
      CancelIsRemembered(Step(s, log[0]), log[1..]);
    }
  }

  lemma CancelIsRememberedStep(s: State, e: Event)
    requires s.sh.ctxDone
    ensures var t := Step(s, e); t.sh.ctxDone && t.h.cancelAt == s.h.cancelAt && t.h.armed == s.h.armed
  {}

  /** After cancellation every claim enqueues at most one more message, and only claims that were
      about to call TryEnqueue at that moment do. */
  lemma AtMostOneEnqueuePerClaimAfterCancel(before: seq<Event>, after: seq<Event>)
    requires !Run(before).sh.ctxDone
    ensures var s, t := Run(before), Run(before + [Cancel] + after);
      && |s.h.enqueued| <= |t.h.enqueued|
      && OncePerArmed(t.h.enqueued[|s.h.enqueued|..], AtTry(s.claims))
      && |t.h.enqueued| - |s.h.enqueued| <= |AtTry(s.claims)|
  {
    var s := Run(before);
    M.RunSnoc(Step, Init, before, Cancel);
    M.RunFromAppend(Step, Init, before + [Cancel], after);
    CancelIsRemembered(Step(s, Cancel), after);
    RunInv(before + [Cancel] + after);
    DistinctBound(Late(Run(before + [Cancel] + after).h), AtTry(s.claims));
  }

  /** The exact bound on what a shutdown strands.  If the worker's last empty poll came after
      cancellation, the stranded messages are at most one per claim that was about to call
      TryEnqueue at cancellation, hence at most one per claim then live. */
  lemma StrandedBound(before: seq<Event>, after: seq<Event>)
    requires !Run(before).sh.ctxDone
    requires var t := Run(before + [Cancel] + after); t.w.pc.Gone? && t.h.emptyAt >= |Run(before).h.enqueued|
    ensures var s, t := Run(before), Run(before + [Cancel] + after);
      && OncePerArmed(t.sh.queue, AtTry(s.claims))
      && |t.sh.queue| <= |AtTry(s.claims)|
      && forall c :: c in AtTry(s.claims) ==> Live(s, c)
  {
    var s, t := Run(before), Run(before + [Cancel] + after);
    AtMostOneEnqueuePerClaimAfterCancel(before, after);
    StrandedIsWhatFollowsTheLastEmptyPoll(before + [Cancel] + after);
    var late, k := t.h.enqueued[|s.h.enqueued|..], t.h.emptyAt - |s.h.enqueued|;
    assert t.sh.queue == late[k..];
    DistinctBound(t.sh.queue, AtTry(s.claims));
  }

  /** The loop of one live claim takes a message and passes both context checks. */
  lemma ReceiveAndCheck(s: State, cl: Claim, offset: int, rest: seq<Event>)
    requires s.claims == [cl] && cl.pc.Ranging? && Deliverable(cl, offset)
    requires cl.session !in s.sh.ended && !s.sh.ctxDone
    ensures RunFrom(s, [Receive(0, offset)] + ([ClaimLoad(0)] + ([ClaimLoad(0)] + rest)))
         == RunFrom(s.(claims := [cl.(received := cl.received + [offset], pc := Trying)]), rest)
  {
    var r := cl.(received := cl.received + [offset]);
    var s1 := s.(claims := [r.(pc := CheckSession)]);
    var s2 := s.(claims := [r.(pc := CheckParent)]);
    M.RunCons(Step, s, Receive(0, offset), [ClaimLoad(0)] + ([ClaimLoad(0)] + rest));
    assert Step(s, Receive(0, offset)) == s1;
    M.RunCons(Step, s1, ClaimLoad(0), [ClaimLoad(0)] + rest);
    assert Step(s1, ClaimLoad(0)) == s2;
    M.RunCons(Step, s2, ClaimLoad(0), rest);
    assert Step(s2, ClaimLoad(0)) == s.(claims := [r.(pc := Trying)]);
  }

  /** It then finds room in the queue and marks the message. */
  lemma TryAndMark(s: State, cl: Claim, offset: int, rest: seq<Event>)
    requires s.claims == [cl] && cl.pc.Trying? && cl.received != [] && cl.received[|cl.received| - 1] == offset
    requires !s.sh.sealed && cl.mark <= offset + 1
    ensures RunFrom(s, [Try(0, false)] + ([Mark(0)] + rest))
         == RunFrom(State([cl.(sent := cl.sent + 1, mark := offset + 1, pc := Ranging)],
                          s.sh.(queue := s.sh.queue + [Message(0, offset)]), s.w,
                          s.h.(enqueued := s.h.enqueued + [Message(0, offset)])), rest)
  {
    var s1 := State([cl.(sent := cl.sent + 1, pc := Marking)], s.sh.(queue := s.sh.queue + [Message(0, offset)]), s.w,
                    s.h.(enqueued := s.h.enqueued + [Message(0, offset)]));
    M.RunCons(Step, s, Try(0, false), [Mark(0)] + rest);
    assert Step(s, Try(0, false)) == s1;
    M.RunCons(Step, s1, Mark(0), rest);
    assert Step(s1, Mark(0)) == s1.(claims := [cl.(sent := cl.sent + 1, mark := offset + 1, pc := Ranging)]);
  }

  /** Cancellation when the worker has just found the queue empty and the one claim is idle. */
  lemma CancelAfterEmptyPoll(s: State, cl: Claim, rest: seq<Event>)
    requires s.claims == [cl] && cl.pc.Ranging? && s.w.pc.CheckCtx? && !s.sh.ctxDone
    ensures var t := Step(s, Cancel);
      RunFrom(s, [Cancel] + ([WorkerLoad] + ([ChannelClosed(0)] + rest)))
      == RunFrom(t.(w := t.w.(pc := Gone), claims := [cl.(pc := Done)]), rest)
  {
    var s1 := Step(s, Cancel);
    var s2 := s1.(w := s1.w.(pc := Gone));
    M.RunCons(Step, s, Cancel, [WorkerLoad] + ([ChannelClosed(0)] + rest));
    M.RunCons(Step, s1, WorkerLoad, [ChannelClosed(0)] + rest);
    assert Step(s1, WorkerLoad) == s2;
    M.RunCons(Step, s2, ChannelClosed(0), rest);
    assert Step(s2, ChannelClosed(0)) == s2.(claims := [cl.(pc := Done)]);
  }

  /** The shutdown sequence with nobody left to wait for. */
  lemma ShutdownRunsThrough(s: State)
    requires s.sh.ctxDone && s.sh.sync.Serving? && AllDone(s.claims) && s.w.pc.Gone?
    ensures RunFrom(s, [SyncNext, SyncNext, SyncNext, SyncNext]) == s.(sh := s.sh.(sealed := true, sync := Finished))
  {
    M.RunFour(Step, s, SyncNext, SyncNext, SyncNext, SyncNext);
    assert Step(s, SyncNext) == s.(sh := s.sh.(sync := Paused));
  }

  lemma ShutdownAfterEmptyPoll(s: State, cl: Claim)
    requires s.claims == [cl] && cl.pc.Ranging? && s.w.pc.CheckCtx? && !s.sh.ctxDone && s.sh.sync.Serving?
    ensures var t := RunFrom(s, [Cancel] + ([WorkerLoad] + ([ChannelClosed(0)] + [SyncNext, SyncNext, SyncNext, SyncNext])));
      t.sh.sync.Finished? && t.h.dispatched == s.h.dispatched && t.sh.queue == s.sh.queue && t.claims == [cl.(pc := Done)]
  {
    CancelAfterEmptyPoll(s, cl, [SyncNext, SyncNext, SyncNext, SyncNext]);
    var s1 := Step(s, Cancel);
    ShutdownRunsThrough(s1.(w := s1.w.(pc := Gone), claims := [cl.(pc := Done)]));
  }

  ghost predicate BothStranded(s: State) {
    && s.sh.sync.Finished? && s.h.dispatched == [] && s.sh.queue == [Message(0, 0), Message(0, 1)]
    && |s.claims| == 1 && s.claims[0].mark == 2
  }

  /** One message is in; a second one is enqueued and marked, then the group is shut down. */
  lemma SecondMessageThenShutdown(s: State, cl: Claim) returns (log: seq<Event>)
    requires cl == Claim(0, 0, [0], 1, 1, Ranging)
    requires s == State([cl], Init.sh.(queue := [Message(0, 0)]), Init.w.(pc := CheckCtx), Init.h.(enqueued := [Message(0, 0)]))
    ensures BothStranded(RunFrom(s, log))
  {
    var stop := [Cancel] + ([WorkerLoad] + ([ChannelClosed(0)] + [SyncNext, SyncNext, SyncNext, SyncNext]));
    var try1 := [Try(0, false)] + ([Mark(0)] + stop);
    log := [Receive(0, 1)] + ([ClaimLoad(0)] + ([ClaimLoad(0)] + try1));
    ReceiveAndCheck(s, cl, 1, try1);
    assert [0] + [1] == [0, 1];
    var c1 := cl.(received := [0, 1], pc := Trying);
    TryAndMark(s.(claims := [c1]), c1, 1, stop);
    var two := [Message(0, 0), Message(0, 1)];
    assert [Message(0, 0)] + [Message(0, 1)] == two;
    var c2 := cl.(received := [0, 1], sent := 2, mark := 2);
    ShutdownAfterEmptyPoll(State([c2], s.sh.(queue := two), s.w, s.h.(enqueued := two)), c2);
  }

  /** Two messages are enqueued and marked while the worker stands between its empty poll and its
      context check; then the group is shut down. */
  lemma TwoMessagesThenShutdown(s: State, cl: Claim) returns (log: seq<Event>)
    requires cl == Claim(0, 0, [], 0, 0, Ranging)
    requires s == Init.(claims := [cl], w := Init.w.(pc := CheckCtx))
    ensures BothStranded(RunFrom(s, log))
  {
    var c1, c2 := cl.(received := [0], pc := Trying), cl.(received := [0], sent := 1, mark := 1);
    var one := [Message(0, 0)];
    var rest := SecondMessageThenShutdown(State([c2], s.sh.(queue := one), s.w, s.h.(enqueued := one)), c2);
    var try0 := [Try(0, false)] + ([Mark(0)] + rest);
    log := [Receive(0, 0)] + ([ClaimLoad(0)] + ([ClaimLoad(0)] + try0));
    ReceiveAndCheck(s, cl, 0, try0);
    assert [] + [0] == [0] && [] + one == one;
    TryAndMark(s.(claims := [c1]), c1, 0, rest);
  }

  /** Without that condition there is no such bound: there is a run in which one claim enqueues and
      marks two messages between the worker's last empty poll and the cancellation, the shutdown runs
      to its end, and both messages stay undispatched below the mark. */
  lemma ShutdownCanStrandMarkedMessages()
    ensures exists log :: BothStranded(Run(log))
  {
    var cl := Claim(0, 0, [], 0, 0, Ranging);
    var s1 := Init.(claims := [cl]);
    var s2 := s1.(w := s1.w.(pc := CheckCtx));
    var rest := TwoMessagesThenShutdown(s2, cl);
    M.RunCons(Step, Init, OpenClaim(0, 0), [Poll(0)] + rest);
    assert Step(Init, OpenClaim(0, 0)) == s1;
    M.RunCons(Step, s1, Poll(0), rest);
    assert Step(s1, Poll(0)) == s2;
    assert BothStranded(Run([OpenClaim(0, 0)] + ([Poll(0)] + rest)));
  }

  // ---- a cancelled claim loop ends ----

  /** Own steps a claim loop can still make once cancelled. */
  function StepsLeft(cl: Claim): nat {
    match cl.pc
    case Trying => 6
    case Marking => 5
    case Ranging => 4
    case CheckSession => 2
    case CheckParent => 1
    case Done => 0
  }

  /** After cancellation every effective own step brings a claim loop nearer to its exit, whatever
      the fullness of the queue, and nobody else's step takes it away again. */
  lemma CancelledStepLowersStepsLeft(s: State, e: Event, c: nat)
    requires s.sh.ctxDone && c < |s.claims|
    ensures c < |Step(s, e).claims|
    ensures StepsLeft(Step(s, e).claims[c]) <= StepsLeft(s.claims[c])
    ensures IsOwn(e, c) && Step(s, e) != s ==> StepsLeft(Step(s, e).claims[c]) < StepsLeft(s.claims[c])
  {
    if !IsOwn(e, c) {
      OthersLeaveClaim(s, e, c);
    } else {
      match e
      case Receive(_, offset) =>
      case ChannelClosed(_) =>
      case ClaimLoad(_) =>
      case Try(_, full) =>
      case Mark(_) =>
    }
  }

  /** The loop is never blocked except while its channel is open and has nothing to deliver. */
  function NextOwn(s: State, c: nat): Event
    requires c < |s.claims|
  {
    match s.claims[c].pc
    case Ranging => ChannelClosed(c)
    case Trying => Try(c, true)
    case Marking => Mark(c)
    case _ => ClaimLoad(c)
  }

  lemma CancelledClaimIsNotBlocked(s: State, c: nat, full: bool)
    requires Inv(s) && Live(s, c)
    ensures IsOwn(NextOwn(s, c), c) && Step(s, NextOwn(s, c)) != s
    ensures s.claims[c].pc.Trying? ==> Step(s, Try(c, full)) != s
    ensures forall offset :: s.claims[c].pc.Ranging? && Deliverable(s.claims[c], offset) ==> Step(s, Receive(c, offset)) != s
  {
    assert ClaimInv(s.claims[c]);
  }

  function OwnSteps(s: State, log: seq<Event>, c: nat): nat
    decreases |log|
  {
    if log == [] then 0
    else (if IsOwn(log[0], c) && Step(s, log[0]) != s then 1 else 0) + OwnSteps(Step(s, log[0]), log[1..], c)
  }

  /** A live claim loop makes at most six own steps after cancellation; it stops only by exiting or
      by waiting for its channel. */
  lemma {:induction false} CancelledClaimTerminates(s: State, log: seq<Event>, c: nat)
    requires Inv(s) && s.sh.ctxDone && c < |s.claims|
    ensures var t := RunFrom(s, log);
      c < |t.claims| && OwnSteps(s, log, c) + StepsLeft(t.claims[c]) <= StepsLeft(s.claims[c]) <= 6
    decreases |log|
  {
    if log != [] {
      StepKeepsInv(s, log[0]);
      CancelIsRememberedStep(s, log[0]);
      CancelledStepLowersStepsLeft(s, log[0], c);
      CancelledClaimTerminates(Step(s, log[0]), log[1..], c);
    }
  }
}
