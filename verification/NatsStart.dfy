/** Start of the NATS core and JetStream clients: a compare-and-swap on `started` with rollback on
    failure, under any number of concurrent and repeated calls. */
module NatsStart {
  import M = Machine

  /** Next step of a Start call. */
  datatype Pc =
    | SwapStarted      // started.CompareAndSwap(false, true)
    | Connect          // doConnect
    | StoreConnected   // conn.IsConnected, connected.Store(true)
    | Subscribe        // syncSubscriptions
    | CloseConn        // conn.Close after a failed subscription
    | Rollback         // started.Store(false)
    | Ready            // readyOnce.Do(OnReady)
    | Spawn            // startDrainPipe
    | Returned(err: bool)

  /** Between a successful swap and the return. */
  predicate InBody(pc: Pc) { !pc.SwapStarted? && !pc.Returned? }

  /** `workers`: drain workers spawned; `readies`: times OnReady fired. */
  datatype State = State(started: bool, connected: bool, readyDone: bool, calls: seq<Pc>, workers: nat, readies: nat)

  /** A new call, or the next step of the i-th one; `ok` is what the SDK answers should it be asked. */
  datatype Event = Call | Proceed(i: nat, ok: bool)

  const Init := State(false, false, false, [], 0, 0)

  function DoProceed(s: State, i: nat, ok: bool): State
    requires i < |s.calls|
  {
    match s.calls[i]
    case SwapStarted => if s.started then s.(calls := s.calls[i := Returned(false)]) else s.(started := true, calls := s.calls[i := Connect])
    case Connect => s.(calls := s.calls[i := if ok then StoreConnected else Rollback])
    case StoreConnected => s.(connected := s.connected || ok, calls := s.calls[i := Subscribe])
    case Subscribe => s.(calls := s.calls[i := if ok then Ready else CloseConn])
    case CloseConn => s.(calls := s.calls[i := Rollback])
    case Rollback => s.(started := false, calls := s.calls[i := Returned(true)])
    case Ready => s.(readyDone := true, readies := if s.readyDone then s.readies else s.readies + 1, calls := s.calls[i := Spawn])
    case Spawn => s.(workers := s.workers + 1, calls := s.calls[i := Returned(false)])
    case Returned(_) => s
  }

  function Step(s: State, e: Event): State {
    match e
    case Call => s.(calls := s.calls + [SwapStarted])
    case Proceed(i, ok) => if i < |s.calls| then DoProceed(s, i, ok) else s
  }

  function RunFrom(s: State, log: seq<Event>): State { M.RunFrom(Step, s, log) }

  function Run(log: seq<Event>): State { RunFrom(Init, log) }

  /** `started` is set exactly while one call is in the body or a worker exists, never both or twice;
      OnReady has fired exactly if that call is about to spawn the worker or has done so. */
  ghost predicate Inv(s: State) {
    && (forall i, j :: 0 <= i < |s.calls| && 0 <= j < |s.calls| && InBody(s.calls[i]) && InBody(s.calls[j]) ==> i == j)
    && (s.started <==> s.workers == 1 || exists i :: 0 <= i < |s.calls| && InBody(s.calls[i]))
    && s.workers <= 1
    && (s.workers == 1 ==> forall i :: 0 <= i < |s.calls| ==> !InBody(s.calls[i]))
    && s.readies <= 1 && (s.readyDone <==> s.readies == 1)
    && (s.readies == 1 <==> s.workers == 1 || exists i :: 0 <= i < |s.calls| && s.calls[i].Spawn?)
  }

  /** A step inside the body moves the one call that is there; nobody else is in the body. */
  lemma BodyStepKeepsInv(s: State, i: nat, ok: bool)
    requires Inv(s) && i < |s.calls| && InBody(s.calls[i])
    ensures Inv(DoProceed(s, i, ok))
  {
    var t := DoProceed(s, i, ok);
    assert s.started && s.workers == 0;
    assert forall j :: 0 <= j < |t.calls| && j != i ==> !InBody(t.calls[j]);
    assert InBody(t.calls[i]) || t.calls[i].Returned?;
    if s.calls[i].Spawn? {
      assert s.readies == 1;
    } else {
      assert s.readies == 0;
      assert t.calls[i].Spawn? <==> s.calls[i].Ready?;
    }
  }

  lemma StepKeepsInv(s: State, e: Event)
    requires Inv(s)
    ensures Inv(Step(s, e))
  {
    match e
    case Call =>
      var t := Step(s, e);
      assert forall i :: 0 <= i < |t.calls| && InBody(t.calls[i]) ==> i < |s.calls| && t.calls[i] == s.calls[i];
      assert forall i :: 0 <= i < |s.calls| ==> t.calls[i] == s.calls[i];
    case Proceed(i, ok) =>
      if i < |s.calls| {
        if InBody(s.calls[i]) {
          BodyStepKeepsInv(s, i, ok);
        } else {
          var t := DoProceed(s, i, ok);
          assert forall j :: 0 <= j < |s.calls| && j != i ==> t.calls[j] == s.calls[j];
          assert !s.started && s.calls[i].SwapStarted? ==> InBody(t.calls[i]);
        }
      }
  }

  lemma {:induction false} RunFromKeepsInv(s: State, log: seq<Event>)
    requires Inv(s)
    ensures Inv(RunFrom(s, log))
    decreases |log|
  {
    if log != [] {
      StepKeepsInv(s, log[0]);
      RunFromKeepsInv(Step(s, log[0]), log[1..]);
    }
  }

  /** Over any number of concurrent and repeated Start calls, with failures rolling `started` back: at
      most one call is inside the body, at most one worker is ever spawned, OnReady fires at most once,
      and once there is a worker every further call returns without entering the body. */
  lemma StartsAtMostOneWorker(log: seq<Event>)
    ensures var s := Run(log);
      && s.workers <= 1 && s.readies <= 1 && s.workers <= s.readies
      && (forall i, j :: 0 <= i < |s.calls| && 0 <= j < |s.calls| && InBody(s.calls[i]) && InBody(s.calls[j]) ==> i == j)
      && (s.workers == 1 ==> s.started && forall i :: 0 <= i < |s.calls| ==> !InBody(s.calls[i]))
  {
    RunFromKeepsInv(Init, log);
  }

  /** A failed start can be retried: with no worker and no call in the body the swap succeeds. */
  lemma FailedStartCanBeRetried(log: seq<Event>, i: nat, ok: bool)
    requires var s := Run(log);
      s.workers == 0 && i < |s.calls| && s.calls[i].SwapStarted? && forall j :: 0 <= j < |s.calls| ==> !InBody(s.calls[j])
    ensures var t := Run(log + [Proceed(i, ok)]); i < |t.calls| && t.calls[i] == Connect
  {
    RunFromKeepsInv(Init, log);
    M.RunSnoc(Step, Init, log, Proceed(i, ok));
  }
}
