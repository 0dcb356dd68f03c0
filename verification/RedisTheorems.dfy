/** What the Redis publisher promises over every run. */
module RedisTheorems {
  import C = Channel
  import M = Machine
  import opened RedisPublisher

  /** Conservation across any number of disconnect and reconnect epochs: accepted messages are, in
      order, the settled batches, the batch in PublishArray and the queue; the attempts are those
      batches in order, each repeated one or more times; and until draining is set every settled
      batch was published successfully. */
  lemma EpochsConserveMessages(log: seq<Event>)
    ensures var s := Run(log);
      && s.h.accepted == Flatten(Batches(s.h.settled)) + s.w.job.batch + s.q.items
      && C.Stutters(Sent(s.h.attempts), Batches(s.h.settled) + if s.w.job.tried then [s.w.job.batch] else [])
      && (!s.f.draining ==> AllOk(s.h.settled))
  {
    RunInv(log);
  }

  // ---- the retry limit ----

  /** Calls made by the i-th PublishArray call, all of them or those with the drain context. */
  function CallsOf(attempts: seq<Attempt>, i: nat, forcedOnly: bool): nat {
    if attempts == [] then 0
    else var last := attempts[|attempts| - 1];
      CallsOf(attempts[..|attempts| - 1], i, forcedOnly) + if last.index == i && (forcedOnly ==> last.forced) then 1 else 0
  }

  lemma CallsSnoc(attempts: seq<Attempt>, a: Attempt, i: nat, forcedOnly: bool)
    ensures CallsOf(attempts + [a], i, forcedOnly)
         == CallsOf(attempts, i, forcedOnly) + if a.index == i && (forcedOnly ==> a.forced) then 1 else 0
  {
    assert (attempts + [a])[..|attempts|] == attempts;
  }

  function Expected(w: Worker, h: History, i: nat, forcedOnly: bool): nat {
    if i < |h.settled| then (if forcedOnly then h.settled[i].drainCalls else h.settled[i].calls)
    else if i == |h.settled| && w.pc.Array? then (if forcedOnly then w.job.drainCalls else w.job.calls) else 0
  }

  ghost predicate CountInv(s: State) {
    forall i: nat, f: bool {:trigger CallsOf(s.h.attempts, i, f)} :: CallsOf(s.h.attempts, i, f) == Expected(s.w, s.h, i, f)
  }

  lemma SendKeepsCount(s: State)
    requires CountInv(s) && WorkerInv(s.w)
    ensures CountInv(DoSend(s))
  {
    var s' := DoSend(s);
    if s' != s {
      forall i: nat, f: bool {:trigger CallsOf(s'.h.attempts, i, f)}
        ensures CallsOf(s'.h.attempts, i, f) == Expected(s'.w, s'.h, i, f)
      {
        CallsSnoc(s.h.attempts, s'.h.attempts[|s.h.attempts|], i, f);
        assert CallsOf(s.h.attempts, i, f) == Expected(s.w, s.h, i, f);
      }
    }
  }

  lemma SettleKeepsCount(s: State, ok: bool)
    requires CountInv(s) && s.w.pc.Array?
    ensures CountInv(Settle(s, ok))
  {
    var s' := Settle(s, ok);
    forall i: nat, f: bool {:trigger CallsOf(s'.h.attempts, i, f)}
      ensures CallsOf(s'.h.attempts, i, f) == Expected(s'.w, s'.h, i, f)
    {
      assert CallsOf(s.h.attempts, i, f) == Expected(s.w, s.h, i, f);
    }
  }

  /** Whatever is neither a send nor the end of a batch keeps the counters, or starts one at zero. */
  lemma SameCount(s: State, s': State)
    requires CountInv(s) && s'.h.attempts == s.h.attempts && s'.h.settled == s.h.settled
    requires s'.w.pc.Array? ==> s'.w.job.drainCalls == if s.w.pc.Array? then s.w.job.drainCalls else 0
    requires s'.w.pc.Array? ==> s'.w.job.calls == if s.w.pc.Array? then s.w.job.calls else 0
    requires s.w.pc.Array? ==> s'.w.pc.Array?
    ensures CountInv(s')
  {
    forall i: nat, f: bool {:trigger CallsOf(s'.h.attempts, i, f)}
      ensures CallsOf(s'.h.attempts, i, f) == Expected(s'.w, s'.h, i, f)
    {
      assert CallsOf(s.h.attempts, i, f) == Expected(s.w, s.h, i, f);
    }
  }

  lemma ArrayKeepsCount(s: State, a: ArrayPc)
    requires CountInv(s) && Inv(s) && s.w.pc == Array(a)
    ensures CountInv(MoveArray(s, a))
  {
    if a.LoadRetry? && s.f.draining && s.w.job.retries + 1 >= MaxDrainRetries {
      SettleKeepsCount(s, false);
    } else {
      SameCount(s, MoveArray(s, a));
    }
  }

  lemma MoveKeepsCount(s: State)
    requires CountInv(s) && Inv(s)
    ensures CountInv(DoMove(s))
  {
    match s.w.pc
    case Array(a) => ArrayKeepsCount(s, a);
    case Publishing(p) => SameCount(s, MovePublish(s, p));
    case Loop(l) => SameCount(s, MoveLoop(s, l));
  }

  lemma StepKeepsCount(s: State, e: Event)
    requires CountInv(s) && Inv(s)
    ensures CountInv(Step(s, e))
  {
    match e
    case Send => SendKeepsCount(s);
    case Answer(ok) => if s.w.pc == Array(Awaiting) && ok { SettleKeepsCount(s, true); } else { SameCount(s, DoAnswer(s, ok)); }
    case Move => MoveKeepsCount(s);
    case Dequeue(n) => SameCount(s, DoDequeue(s, n));
    case _ => SameCount(s, Step(s, e));
  }

  lemma {:induction false} RunFromKeepsCount(s: State, log: seq<Event>)
    requires CountInv(s) && Inv(s)
    ensures CountInv(RunFrom(s, log))
    decreases |log|
  {
    if log != [] {
      StepKeepsInv(s, log[0]);
      StepKeepsCount(s, log[0]);
      RunFromKeepsCount(Step(s, log[0]), log[1..]);
    }
  }

  lemma RunCounts(log: seq<Event>)
    ensures Inv(Run(log)) && CountInv(Run(log))
  {
    RunInv(log);
    RunInv([]);
    assert CountInv(Init);
    RunFromKeepsCount(Init, log);
  }

  /** No PublishArray call uses the drain context more than three times. */
  lemma AtMostThreeDrainCallsPerBatch(log: seq<Event>, i: nat)
    ensures CallsOf(Run(log).h.attempts, i, true) <= 3
  {
    RunCounts(log);
    assert CallsOf(Run(log).h.attempts, i, true) == Expected(Run(log).w, Run(log).h, i, true);
  }

  /** No batch is given up early either: it is settled without success if and only if three of its calls failed
      and were counted under draining, so after at least three attempts at it; a batch that was published needed
      at least one more attempt than it had such failures. */
  lemma DroppedOnlyOnThirdFailure(log: seq<Event>, i: nat)
    requires i < |Run(log).h.settled|
    ensures var s := Run(log); var o := s.h.settled[i];
      && (!o.ok <==> o.failures == 3) && o.failures <= 3
      && CallsOf(s.h.attempts, i, false) >= (if o.ok then o.failures + 1 else 3)
      && (!o.ok ==> s.f.draining)
  {
    RunCounts(log);
    var s := Run(log);
    assert CallsOf(s.h.attempts, i, false) == Expected(s.w, s.h, i, false) == s.h.settled[i].calls;
  }

  // ---- the two-flag handshake ----

  /** The goroutine is committed to the drain: still registered, and not on its way out otherwise, or gone through it. */
  ghost predicate Committed(s: State) {
    && s.f.draining
    && match s.w.pc
       case Loop(l) => l.LoopLoadDraining? || l.Stopped?
       case Publishing(p) => !s.f.passed && (p.Leaving? ==> p.via.ViaDrain?)
       case Array(_) => !s.f.passed
  }

  lemma CommittedStep(s: State, e: Event)
    requires Inv(s) && Committed(s)
    ensures Committed(Step(s, e))
  {}

  lemma {:induction false} CommittedStays(s: State, log: seq<Event>)
    requires Inv(s) && Committed(s)
    ensures Committed(RunFrom(s, log))
    decreases |log|
  {
    if log != [] {
      StepKeepsInv(s, log[0]);
      CommittedStep(s, log[0]);
      CommittedStays(Step(s, log[0]), log[1..]);
    }
  }

  /** The handshake: if Close stores draining while the goroutine is registered and the link is up,
      then in every continuation it leaves startPublish through the drain branch only, never through
      the disconnect exit, and afterwards goes no further than reconnectLoop's draining check.
      Exactly: what is needed of a registered goroutine is that it is not already leaving. */
  lemma HandshakeLeavesThroughDrain(before: seq<Event>, after: seq<Event>)
    requires var s := Run(before); Registered(s.w.pc) && !s.f.draining
    ensures var s, t := Run(before), Run(before + [CloseDraining] + after);
      && (s.f.connected ==> !(s.w.pc.Publishing? && s.w.pc.p.Leaving?))
      && (!(s.w.pc.Publishing? && s.w.pc.p.Leaving?) ==> Committed(t))
  {
    RunInv(before);
    RunInv(before + [CloseDraining]);
    M.RunSnoc(Step, Init, before, CloseDraining);
    M.RunFromAppend(Step, Init, before + [CloseDraining], after);
    var s := Run(before);
    if s.w.pc.Publishing? && s.w.pc.p.Leaving? {
      match s.w.pc.p.via
      case ViaDrain =>
      case ViaDisconnect =>
      case ViaClosedQueue =>
    } else {
      CommittedStays(Step(s, CloseDraining), after);
    }
  }

  /** What was accepted when draining was stored has been settled once the goroutine is through the drain. */
  ghost predicate Covered(s: State, first: seq<Message>) {
    && first <= s.h.accepted
    && (s.w.pc.Loop? || s.w.pc == Publishing(Leaving(ViaDrain)) ==> first <= Flatten(Batches(s.h.settled)))
    && (s.f.passed ==> s.w.pc.Loop?)
  }

  lemma DrainedCovers(s: State, n: nat, first: seq<Message>)
    requires Inv(s) && Committed(s) && Covered(s, first)
    ensures Covered(DoDequeue(s, n), first)
  {
    if s.w.pc == Publishing(DrainDequeue) && s.q.items == [] {
      var done := Flatten(Batches(s.h.settled));
      assert s.w.job.batch == [] && done + [] + [] == done;
    }
  }

  lemma ArrayKeepsCovered(s: State, a: ArrayPc, first: seq<Message>)
    requires Inv(s) && Committed(s) && Covered(s, first) && s.w.pc == Array(a)
    ensures Covered(MoveArray(s, a), first)
  {}

  lemma MoveKeepsCovered(s: State, first: seq<Message>)
    requires Inv(s) && Committed(s) && Covered(s, first)
    ensures Covered(DoMove(s), first)
  {
    match s.w.pc
    case Loop(l) =>
    case Publishing(p) =>
    case Array(a) => ArrayKeepsCovered(s, a, first);
  }

  lemma CoveredStep(s: State, e: Event, first: seq<Message>)
    requires Inv(s) && Committed(s) && Covered(s, first)
    ensures Covered(Step(s, e), first)
  {
    match e
    case Dequeue(n) => DrainedCovers(s, n, first);
    case Move => MoveKeepsCovered(s, first);
    case _ =>
  }

  lemma {:induction false} CoveredStays(s: State, log: seq<Event>, first: seq<Message>)
    requires Inv(s) && Committed(s) && Covered(s, first)
    ensures Covered(RunFrom(s, log), first)
    decreases |log|
  {
    if log != [] {
      StepKeepsInv(s, log[0]);
      CommittedStep(s, log[0]);
      CoveredStep(s, log[0], first);
      CoveredStays(Step(s, log[0]), log[1..], first);
    }
  }

  /** Registered, and not on its way out of startPublish. */
  predicate InPublish(pc: Pc) { Registered(pc) && !(pc.Publishing? && pc.p.Leaving?) }

  /** If the goroutine is in startPublish and not leaving it when draining is stored, every message accepted
      before is settled by the time any Close call is past wg.Wait, in a batch that was sent at least once. */
  lemma AcceptedBeforeDrainingIsAttempted(before: seq<Event>, after: seq<Event>)
    requires InPublish(Run(before).w.pc) && !Run(before).f.draining
    ensures var s, t := Run(before), Run(before + [CloseDraining] + after);
      t.f.passed ==>
        && s.h.accepted <= Flatten(Batches(t.h.settled))
        && forall i :: 0 <= i < |t.h.settled| ==> t.h.settled[i].batch in Sent(t.h.attempts)
  {
    var s, t := Run(before), Run(before + [CloseDraining] + after);
    RunInv(before);
    HandshakeLeavesThroughDrain(before, []);
    assert before + [CloseDraining] + [] == before + [CloseDraining];
    RunInv(before + [CloseDraining]);
    M.RunSnoc(Step, Init, before, CloseDraining);
    M.RunFromAppend(Step, Init, before + [CloseDraining], after);
    CoveredStays(Step(s, CloseDraining), after, s.h.accepted);
    RunInv(before + [CloseDraining] + after);
    if t.f.passed {
      assert Batches(t.h.settled) + [] == Batches(t.h.settled);
      forall i | 0 <= i < |t.h.settled| ensures t.h.settled[i].batch in Sent(t.h.attempts) {
        C.StuttersCovers(Sent(t.h.attempts), Batches(t.h.settled), i);
      }
    }
  }

  /** A Close call is past wg.Wait and something of `first` is not settled. */
  ghost predicate Skipped(s: State, first: seq<Message>) {
    s.f.passed && !(first <= Flatten(Batches(s.h.settled)))
  }

  lemma {:induction false} SettledStays(s: State, log: seq<Event>, first: seq<Message>)
    requires Inv(s) && first <= Flatten(Batches(s.h.settled))
    ensures first <= Flatten(Batches(RunFrom(s, log).h.settled))
    decreases |log|
  {
    if log != [] {
      var t := Step(s, log[0]);
      SettledStep(s, log[0]);
      StepKeepsInv(s, log[0]);
      SettledStays(t, log[1..], first);
    }
  }

  lemma SettledStep(s: State, e: Event)
    ensures Flatten(Batches(s.h.settled)) <= Flatten(Batches(Step(s, e).h.settled))
  {
    var t := Step(s, e);
    if t.h.settled == s.h.settled {
    } else {
      assert Batches(t.h.settled) == Batches(s.h.settled) + [s.w.job.batch];
      FlattenSnoc(Batches(s.h.settled), s.w.job.batch);
    }
  }

  /** Close gets past wg.Wait at once when the goroutine is not registered, or is just leaving. */
  lemma CloseCanSkip(s: State) returns (log: seq<Event>)
    requires Inv(s) && s.f.draining && !InPublish(s.w.pc) && s.q.items != [] && s.w.job.batch == []
    ensures Skipped(RunFrom(s, log), s.h.accepted)
  {
    var s1 := Step(s, CloseConnected);
    M.RunCons(Step, s, CloseConnected, [Move] + ([CloseWait] + []));
    M.RunCons(Step, s, CloseConnected, [CloseWait] + []);
    var done := Flatten(Batches(s.h.settled));
    assert |s.h.accepted| == |done| + |s.w.job.batch| + |s.q.items|;
    if Registered(s.w.pc) {
      var s2 := Step(s1, Move);
      M.RunCons(Step, s1, Move, [CloseWait] + []);
      M.RunCons(Step, s2, CloseWait, []);
      log := [CloseConnected] + ([Move] + ([CloseWait] + []));
    } else {
      M.RunCons(Step, s1, CloseWait, []);
      log := [CloseConnected] + ([CloseWait] + []);
    }
  }

  lemma QueueEmptyOrInPublish(before: seq<Event>, after: seq<Event>)
    requires !Run(before).f.draining && (InPublish(Run(before).w.pc) || Run(before).q.items == [])
    ensures !Skipped(Run(before + [CloseDraining] + after), Run(before).h.accepted)
  {
    var s := Run(before);
    RunInv(before);
    if InPublish(s.w.pc) {
      AcceptedBeforeDrainingIsAttempted(before, after);
    } else {
      assert s.w.job.batch == [];
      var done := Flatten(Batches(s.h.settled));
      assert done + [] + [] == done;
      M.RunSnoc(Step, Init, before, CloseDraining);
      M.RunFromAppend(Step, Init, before + [CloseDraining], after);
      StepKeepsInv(s, CloseDraining);
      SettledStays(Step(s, CloseDraining), after, s.h.accepted);
    }
  }

  /** The exact condition: however things go on after draining is stored, no Close call gets past wg.Wait
      with an earlier accepted message unsettled, if and only if the goroutine was in startPublish and not
      leaving it, or the queue was empty. */
  lemma CloseSettlesAcceptedIff(before: seq<Event>)
    requires !Run(before).f.draining
    ensures (forall after {:trigger Run(before + [CloseDraining] + after)} ::
               !Skipped(Run(before + [CloseDraining] + after), Run(before).h.accepted))
            <==> InPublish(Run(before).w.pc) || Run(before).q.items == []
  {
    var s := Run(before);
    if InPublish(s.w.pc) || s.q.items == [] {
      forall after {:trigger Run(before + [CloseDraining] + after)} | true
        ensures !Skipped(Run(before + [CloseDraining] + after), s.h.accepted)
      {
        QueueEmptyOrInPublish(before, after);
      }
    } else {
      RunInv(before);
      StepKeepsInv(s, CloseDraining);
      var after := CloseCanSkip(Step(s, CloseDraining));
      M.RunSnoc(Step, Init, before, CloseDraining);
      M.RunFromAppend(Step, Init, before + [CloseDraining], after);
      assert Skipped(Run(before + [CloseDraining] + after), s.h.accepted);
    }
  }

  // ---- drain termination ----

  /** Steps the goroutine can still make once draining, not counting messages yet to be dequeued. */
  function Rank(w: Worker): nat {
    match w.pc
    case Loop(l) =>
      (match l case LoopLoadDraining => 1 case LoopLoadConnected => 8 case Pinging => 7 case StoreUp => 6
               case StoreDown => 2 case Adding => 5 case Stopped => 0)
    case Publishing(p) =>
      (match p case LoadDraining => 4 case LoadConnected => 7 case LoadDrainingAgain => 6 case TryDequeue => 5
               case DrainDequeue => 3 case Leaving(_) => 2)
    case Array(a) =>
      6 * (if w.job.retries < 3 then 3 - w.job.retries else 0) +
      (match a case LoadMode => 6 case Sending => 5 case Awaiting => 4 case LoadOnError => 3 case StoreOnError => 2 case LoadRetry => 1)
  }

  /** Publishers past the draining check weigh more than queued messages, those more than any batch in progress. */
  function Work(s: State): nat { 33 * |s.calls| + 32 * |s.q.items| + Rank(s.w) }

  predicate Counts(e: Event) { IsWork(e) || e.PublishEnqueue? || e.PublishFull? }

  lemma LoopLowersRank(s: State, l: LoopPc)
    requires Inv(s) && s.f.draining && s.w.pc == Loop(l) && MoveLoop(s, l) != s
    ensures Rank(MoveLoop(s, l).w) < Rank(s.w)
  {}

  lemma PublishLowersRank(s: State, p: PublishPc)
    requires Inv(s) && s.f.draining && s.w.pc == Publishing(p) && MovePublish(s, p) != s
    ensures Rank(MovePublish(s, p).w) < Rank(s.w)
  {}

  lemma ArrayLowersRank(s: State, a: ArrayPc)
    requires Inv(s) && s.f.draining && s.w.pc == Array(a) && MoveArray(s, a) != s
    ensures Rank(MoveArray(s, a).w) < Rank(s.w)
  {}

  lemma MoveLowersWork(s: State)
    requires Inv(s) && s.f.draining && DoMove(s) != s
    ensures Work(DoMove(s)) < Work(s)
  {
    match s.w.pc
    case Loop(l) => LoopLowersRank(s, l);
    case Publishing(p) => PublishLowersRank(s, p);
    case Array(a) => ArrayLowersRank(s, a);
  }

  lemma PublisherLeaves(calls: map<nat, Message>, id: nat)
    requires id in calls
    ensures |calls - {id}| == |calls| - 1
  {
    assert (calls - {id}).Keys == calls.Keys - {id};
    assert |calls.Keys| == |calls| && |(calls - {id}).Keys| == |calls - {id}|;
  }

  lemma EnqueueLowersWork(s: State, id: nat)
    requires id in s.calls
    ensures Work(DoEnqueue(s, id)) < Work(s)
  {
    PublisherLeaves(s.calls, id);
  }

  lemma DequeueLowersWork(s: State, n: nat)
    requires Inv(s) && s.f.draining && DoDequeue(s, n) != s
    ensures Work(DoDequeue(s, n)) < Work(s)
  {}

  lemma AnswerLowersWork(s: State, ok: bool)
    requires Inv(s) && DoAnswer(s, ok) != s
    ensures Work(DoAnswer(s, ok)) < Work(s)
  {}

  lemma SendLowersWork(s: State)
    requires DoSend(s) != s
    ensures Work(DoSend(s)) < Work(s)
  {}

  lemma PingLowersWork(s: State, ok: bool)
    requires DoPing(s, ok) != s
    ensures Work(DoPing(s, ok)) < Work(s)
  {}

  lemma FullLowersWork(s: State, id: nat)
    ensures var t := Step(s, PublishFull(id)); Work(t) <= Work(s) && (t != s ==> Work(t) < Work(s))
  {
    if id in s.calls {
      PublisherLeaves(s.calls, id);
    } else {
      assert s.calls - {id} == s.calls;
    }
  }

  lemma CloseKeepsWork(s: State, e: Event)
    ensures Work(DoClose(s, e)) == Work(s)
  {}

  /** Once draining is set every effective step of the goroutine or of a publisher lowers Work, and no
      step raises it: a failed send costs a retry, a batch costs its messages, a publisher itself. */
  lemma DrainingStepLowersWork(s: State, e: Event)
    requires Inv(s) && s.f.draining
    ensures var t := Step(s, e); Work(t) <= Work(s) && (Counts(e) ==> t == s || Work(t) < Work(s))
  {
    if Step(s, e) == s { return; }
    match e
    case PublishEnqueue(id) => EnqueueLowersWork(s, id);
    case PublishFull(id) => FullLowersWork(s, id);
    case Move => MoveLowersWork(s);
    case Dequeue(n) => DequeueLowersWork(s, n);
    case Answer(ok) => AnswerLowersWork(s, ok);
    case Send => SendLowersWork(s);
    case Ping(ok) => PingLowersWork(s, ok);
    case PublishCheck(_, _) =>
    case _ => CloseKeepsWork(s, e);
  }

  /** The goroutine's next step: it is never blocked. */
  function NextWork(s: State): Event {
    match s.w.pc
    case Loop(l) => if l.Pinging? then Ping(false) else Move
    case Publishing(p) => if p.TryDequeue? || p.DrainDequeue? then Dequeue(|s.q.items|) else Move
    case Array(a) => if a.Sending? then Send else if a.Awaiting? then Answer(false) else Move
  }

  lemma NeverBlocked(s: State)
    requires Inv(s) && s.f.draining && s.w.pc != Loop(Stopped)
    ensures Counts(NextWork(s)) && Step(s, NextWork(s)) != s
  {
    match s.w.pc
    case Loop(l) =>
    case Publishing(p) =>
    case Array(a) =>
  }

  function Moves(s: State, log: seq<Event>): nat
    decreases |log|
  {
    if log == [] then 0
    else (if Counts(log[0]) && Step(s, log[0]) != s then 1 else 0) + Moves(Step(s, log[0]), log[1..])
  }

  /** Drain termination: once draining is set, the goroutine and the publishers still inside Publish
      make at most Work(s) more moves together, whatever Redis answers, and the goroutine stops only
      at the end of Start. */
  lemma {:induction false} DrainTerminates(s: State, log: seq<Event>)
    requires Inv(s) && s.f.draining
    ensures var t := RunFrom(s, log);
      && Moves(s, log) + Work(t) <= Work(s)
      && (t.w.pc == Loop(Stopped) || Step(t, NextWork(t)) != t)
    decreases |log|
  {
    if log == [] {
      if s.w.pc != Loop(Stopped) { NeverBlocked(s); }
    } else {
      StepKeepsInv(s, log[0]);
      DrainingStepLowersWork(s, log[0]);
      assert Step(s, log[0]).f.draining by { DrainingIsKept(s, log[0]); }
      DrainTerminates(Step(s, log[0]), log[1..]);
    }
  }

  lemma DrainingIsKept(s: State, e: Event)
    requires s.f.draining
    ensures Step(s, e).f.draining
  {}
}
