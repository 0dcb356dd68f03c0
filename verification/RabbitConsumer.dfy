/** The RabbitMQ consumer: SyncSubscribe with its per-delivery handlers counted in a local
    WaitGroup, and Close, under every interleaving. */
module RabbitConsumer {
  import M = Machine

  /** A delivery handler: called by Run, counted (subWg.Add), past the isClosed check and running
      the message handler, finishing (deferred subWg.Done), done. */
  datatype HandlerPc = Called | Counted | Running | Finishing | Done

  /** `sawClosed`: the check found isClosed set; `ran`: the message handler was started. */
  datatype Handler = Handler(pc: HandlerPc, sawClosed: bool, ran: bool)

  /** SyncSubscribe: inside Run, waiting for its handlers, past that wait, returned (wg.Done). */
  datatype SubPc = InRun | RunReturned | Waited | Exited

  /** The Close call that won the compare-and-swap. */
  datatype ClosePc = NotCalled | Swapped | ConsumerClosed | GroupDone | ConnClosed

  datatype Shared = Shared(isClosed: bool, sub: SubPc, close: ClosePc)

  /** `clean`: when Run returned, isClosed was set or every handler called so far had been counted. */
  datatype State = State(hs: seq<Handler>, sh: Shared, clean: bool)

  datatype Event =
    | Deliver              // Run calls the handler; never after it has returned
    | Handle(i: nat)       // the i-th handler takes its next step
    | ReturnRun            // Run returns, after consumer.Close or with an error of its own
    | SubNext              // SyncSubscribe: subWg.Wait, then wg.Done
    | CloseCall | CloseNext

  const Init := State([], Shared(false, InRun, NotCalled), true)

  /** Delivered to the handler's caller: NackRequeue for a delivery that saw isClosed. */
  predicate Requeued(h: Handler) { h.pc.Done? && h.sawClosed }

  predicate InWaitGroup(h: Handler) { h.pc.Counted? || h.pc.Running? || h.pc.Finishing? }

  predicate AllCounted(hs: seq<Handler>) { forall i :: 0 <= i < |hs| ==> !hs[i].pc.Called? }
  predicate WaitGroupZero(hs: seq<Handler>) { forall i :: 0 <= i < |hs| ==> !InWaitGroup(hs[i]) }

  function Advance(h: Handler, isClosed: bool): Handler {
    match h.pc
    case Called => h.(pc := Counted)
    case Counted => if isClosed then h.(pc := Finishing, sawClosed := true) else h.(pc := Running, ran := true)
    case Running => h.(pc := Finishing)
    case Finishing => h.(pc := Done)
    case Done => h
  }

  function DoSub(s: State): State {
    match s.sh.sub
    case RunReturned => if WaitGroupZero(s.hs) then s.(sh := s.sh.(sub := Waited)) else s
    case Waited => s.(sh := s.sh.(sub := Exited))
    case _ => s
  }

  function DoClose(s: State): State {
    match s.sh.close
    case Swapped => s.(sh := s.sh.(close := ConsumerClosed))
    case ConsumerClosed => if s.sh.sub.Exited? then s.(sh := s.sh.(close := GroupDone)) else s
    case GroupDone => s.(sh := s.sh.(close := ConnClosed))
    case _ => s
  }

  function Step(s: State, e: Event): State {
    match e
    case Deliver => if s.sh.sub.InRun? then s.(hs := s.hs + [Handler(Called, false, false)]) else s
    case Handle(i) => if i < |s.hs| then s.(hs := s.hs[i := Advance(s.hs[i], s.sh.isClosed)]) else s
    case ReturnRun =>
      if s.sh.sub.InRun? then s.(sh := s.sh.(sub := RunReturned), clean := s.sh.isClosed || AllCounted(s.hs)) else s
    case SubNext => DoSub(s)
    case CloseCall => if s.sh.isClosed then s else s.(sh := s.sh.(isClosed := true, close := Swapped))
    case CloseNext => DoClose(s)
  }

  function RunFrom(s: State, log: seq<Event>): State { M.RunFrom(Step, s, log) }

  function Run(log: seq<Event>): State { RunFrom(Init, log) }

  ghost predicate HandlerInv(h: Handler) {
    && (h.pc.Called? || h.pc.Counted? ==> !h.sawClosed && !h.ran)
    && (h.pc.Running? ==> h.ran)
    && (h.pc.Finishing? || h.pc.Done? ==> h.sawClosed == !h.ran)
    && !(h.sawClosed && h.ran)
  }

  /** After the wait no handler runs, and none can start to: those not yet past their check will see isClosed. */
  predicate Quiet(h: Handler, isClosed: bool) {
    !h.pc.Running? && (h.pc.Called? || h.pc.Counted? ==> isClosed)
  }

  ghost predicate Inv(s: State) {
    && (forall i :: 0 <= i < |s.hs| ==> HandlerInv(s.hs[i]))
    && (s.sh.isClosed <==> !s.sh.close.NotCalled?)
    && (s.sh.close.GroupDone? || s.sh.close.ConnClosed? ==> s.sh.sub.Exited?)
    && (s.sh.sub.RunReturned? && s.clean ==> s.sh.isClosed || AllCounted(s.hs))
    && ((s.sh.sub.Waited? || s.sh.sub.Exited?) && s.clean ==> forall i :: 0 <= i < |s.hs| ==> Quiet(s.hs[i], s.sh.isClosed))
  }

  lemma StepKeepsInv(s: State, e: Event)
    requires Inv(s)
    ensures Inv(Step(s, e))
  {}

  lemma {:induction false} RunFromKeepsInv(s: State, log: seq<Event>)
    requires Inv(s)
    ensures Inv(RunFrom(s, log))
    decreases |log|
  {
    if log != [] {
      StepKeepsInv(s, log[0]);
      RunFromKeepsInv(Step(s, log[0]), log[1..]);
    }
  }

  /** A delivery that observed isClosed never has its message handler run, and is requeued when it is
      done; a delivery that did not observe it is not requeued. */
  lemma ObservedClosedIsRequeued(log: seq<Event>, i: nat)
    requires i < |Run(log).hs|
    ensures var h := Run(log).hs[i];
      && (h.sawClosed ==> !h.ran)
      && (h.pc.Done? ==> (Requeued(h) <==> !h.ran))
  {
    RunFromKeepsInv(Init, log);
    assert HandlerInv(Run(log).hs[i]);
  }

  predicate HandlerRunning(s: State) { exists i :: 0 <= i < |s.hs| && s.hs[i].pc.Running? }

  /** A message handler is running on a closed connection. */
  predicate Violation(s: State) { s.sh.close.ConnClosed? && HandlerRunning(s) }

  // ---- exactly when the promise holds ----

  lemma CleanStep(s: State, e: Event)
    requires !s.sh.sub.InRun?
    ensures !Step(s, e).sh.sub.InRun? && Step(s, e).clean == s.clean
  {}

  lemma {:induction false} CleanStays(s: State, log: seq<Event>)
    requires !s.sh.sub.InRun?
    ensures RunFrom(s, log).clean == s.clean
    decreases |log|
  {
    if log != [] {
      CleanStep(s, log[0]);
      CleanStays(Step(s, log[0]), log[1..]);
    }
  }

  /** Finishes the handlers in the WaitGroup among the first k, leaving the others as they are. */
  lemma {:induction false} FinishCounted(s: State, k: nat) returns (log: seq<Event>)
    requires k <= |s.hs| && !s.sh.isClosed
    ensures var t := RunFrom(s, log);
      && t.sh == s.sh && t.clean == s.clean && |t.hs| == |s.hs|
      && (forall i :: 0 <= i < k ==> t.hs[i].pc == if InWaitGroup(s.hs[i]) then Done else s.hs[i].pc)
      && (forall i :: k <= i < |s.hs| ==> t.hs[i] == s.hs[i])
    decreases k
  {
    log := [];
    if k > 0 {
      log := FinishCounted(s, k - 1);
      var t := RunFrom(s, log);
      if InWaitGroup(t.hs[k - 1]) {
        var steps := [Handle(k - 1), Handle(k - 1), Handle(k - 1)];
        M.RunFromAppend(Step, s, log, steps);
        M.RunThree(Step, t, Handle(k - 1), Handle(k - 1), Handle(k - 1));
        HandledThrice(t, k - 1);
        log := log + steps;
      }
    }
  }

  lemma HandledThrice(s: State, i: nat)
    requires i < |s.hs| && InWaitGroup(s.hs[i]) && !s.sh.isClosed
    ensures var t := Step(Step(Step(s, Handle(i)), Handle(i)), Handle(i));
      t.sh == s.sh && t.clean == s.clean && |t.hs| == |s.hs| && t.hs[i].pc == Done
      && forall j :: 0 <= j < |s.hs| && j != i ==> t.hs[j] == s.hs[j]
  {
    var e := Handle(i);
    var s1 := Step(s, e);
    var s2 := Step(s1, e);
    assert s1.sh == s.sh && s2.sh == s.sh;
    assert s1.hs[i] == Advance(s.hs[i], false) && s2.hs[i] == Advance(s1.hs[i], false);
  }

  /** SyncSubscribe ends while handler h has been called but not counted; then h is counted and runs,
      and Close goes through to the connection. */
  lemma LateHandlerRuns(s: State, h: nat) returns (log: seq<Event>)
    requires h < |s.hs| && s.hs[h].pc.Called? && !s.sh.isClosed
    requires s.sh.sub.RunReturned? && WaitGroupZero(s.hs) && s.sh.close.NotCalled?
    ensures Violation(RunFrom(s, log))
  {
    var s1 := s.(sh := s.sh.(sub := Waited));
    var s2 := s.(sh := s.sh.(sub := Exited));
    var s3 := s2.(hs := s.hs[h := Handler(Counted, s.hs[h].sawClosed, s.hs[h].ran)]);
    var s4 := s2.(hs := s.hs[h := Handler(Running, s.hs[h].sawClosed, true)]);
    var s5 := s4.(sh := Shared(true, Exited, Swapped));
    var s6 := s4.(sh := Shared(true, Exited, ConsumerClosed));
    var s7 := s4.(sh := Shared(true, Exited, GroupDone));
    var s8 := s4.(sh := Shared(true, Exited, ConnClosed));
    var close := [CloseCall, CloseNext, CloseNext, CloseNext];
    log := [SubNext, SubNext, Handle(h), Handle(h)] + close;
    M.RunFour(Step, s, SubNext, SubNext, Handle(h), Handle(h));
    assert Step(s, SubNext) == s1 && Step(s1, SubNext) == s2;
    assert Step(s2, Handle(h)) == s3;
    assert Step(s3, Handle(h)) == s4;
    M.RunFromAppend(Step, s, [SubNext, SubNext, Handle(h), Handle(h)], close);
    M.RunFour(Step, s4, CloseCall, CloseNext, CloseNext, CloseNext);
    assert Step(s4, CloseCall) == s5 && Step(s5, CloseNext) == s6;
    assert Step(s6, CloseNext) == s7 && Step(s7, CloseNext) == s8;
    assert s8.hs[h].pc.Running?;
  }

  /** Run returns with handler h called but not counted and isClosed unset: some continuation closes
      the connection under a running handler. */
  lemma UncountedAtErrorReturnCanViolate(log: seq<Event>, h: nat) returns (more: seq<Event>)
    requires var s := Run(log); s.sh.sub.InRun? && !s.sh.isClosed && h < |s.hs| && s.hs[h].pc.Called?
    ensures Violation(Run(log + [ReturnRun] + more))
  {
    var s := Step(Run(log), ReturnRun);
    M.RunSnoc(Step, Init, log, ReturnRun);
    RunFromKeepsInv(Init, log);
    var finish := FinishCounted(s, |s.hs|);
    var t := RunFrom(s, finish);
    assert WaitGroupZero(t.hs);
    var late := LateHandlerRuns(t, h);
    M.RunFromAppend(Step, s, finish, late);
    M.RunFromAppend(Step, Init, log + [ReturnRun], finish + late);
    more := finish + late;
  }

  /** Such a run: one delivery is called, and before it counts itself Run returns with an error. */
  lemma HandlerCanRunOnClosedConnection()
    ensures exists log :: Violation(Run(log))
  {
    var called := Step(Init, Deliver);
    M.RunCons(Step, Init, Deliver, []);
    assert [Deliver] + [] == [Deliver] && Run([Deliver]) == called;
    assert called.hs == [Handler(Called, false, false)];
    var more := UncountedAtErrorReturnCanViolate([Deliver], 0);
    assert Violation(Run([Deliver] + [ReturnRun] + more));
  }

  /** The promise, exactly.  However the run goes on after Run returned, no message handler is ever
      running when the connection is closed, if and only if at Run's return isClosed was set, which is
      so whenever Close made it return, or every handler Run had called was already counted. */
  lemma ConnectionClosesQuietlyIff(log: seq<Event>)
    requires Run(log).sh.sub.InRun?
    ensures (forall more {:trigger Run(log + [ReturnRun] + more)} :: !Violation(Run(log + [ReturnRun] + more)))
            <==> Run(log).sh.isClosed || AllCounted(Run(log).hs)
  {
    var s := Run(log);
    if s.sh.isClosed || AllCounted(s.hs) {
      forall more {:trigger Run(log + [ReturnRun] + more)} | true ensures !Violation(Run(log + [ReturnRun] + more)) {
        M.RunSnoc(Step, Init, log, ReturnRun);
        M.RunFromAppend(Step, Init, log + [ReturnRun], more);
        CleanStays(Step(s, ReturnRun), more);
        RunFromKeepsInv(Init, log + [ReturnRun] + more);
        var t := Run(log + [ReturnRun] + more);
        assert t.clean;
        if t.sh.close.ConnClosed? {
          assert forall i :: 0 <= i < |t.hs| ==> Quiet(t.hs[i], t.sh.isClosed);
        }
      }
    } else {
      var h :| 0 <= h < |s.hs| && s.hs[h].pc.Called?;
      var more := UncountedAtErrorReturnCanViolate(log, h);
    }
  }

  /** In particular a shutdown begun by Close is always quiet, and before SyncSubscribe has returned the
      connection is not closed at all. */
  lemma CloseFirstIsQuiet(log: seq<Event>)
    ensures var s := Run(log); s.clean && s.sh.close.ConnClosed? ==> s.sh.sub.Exited? && !HandlerRunning(s)
  {
    RunFromKeepsInv(Init, log);
    var s := Run(log);
    if s.clean && s.sh.close.ConnClosed? {
      assert forall i :: 0 <= i < |s.hs| ==> Quiet(s.hs[i], s.sh.isClosed);
    }
  }
}
