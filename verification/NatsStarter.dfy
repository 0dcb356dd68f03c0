/** Start in the form the source gives it: one call in the foreground, any others interleaved.  Valid ties
    the fields to the machine's state `s`, OnTrack that state to the trace of the call in the foreground. */
module NatsStarter {
  import M = Machine
  import opened NatsStart

  /** Steps of the other calls before one step of this one, and what the SDK answers to it. */
  datatype Turn = Turn(others: seq<Event>, ok: bool)

  function IsMine(me: nat): Event -> bool { (e: Event) => e.Proceed? && e.i == me }

  function Others(me: nat, s: State, es: seq<Event>): State { RunFrom(s, M.Theirs(IsMine(me), es)) }

  function Turned(me: nat, s: State, turn: Turn): State { Step(Others(me, s, turn.others), Proceed(me, turn.ok)) }

  function Advance(me: nat): (State, Turn) -> State { (s, turn) => Turned(me, s, turn) }

  /** The client after k steps of the me-th Start call. */
  function Trace(me: nat, base: State, sched: nat -> Turn, k: nat): State { M.Trace(Advance(me), base, sched, k) }

  /** `at` is the trace as a function of the number of steps. */
  ghost predicate Follows(at: nat -> State, me: nat, base: State, sched: nat -> Turn) {
    forall k: nat {:trigger Trace(me, base, sched, k)} :: at(k) == Trace(me, base, sched, k)
  }

  lemma NextTurn(at: nat -> State, me: nat, base: State, sched: nat -> Turn, k: nat)
    requires Follows(at, me, base, sched)
    ensures at(k + 1) == Turned(me, at(k), sched(k))
  {
    assert at(k) == Trace(me, base, sched, k) && at(k + 1) == Trace(me, base, sched, k + 1);
  }

  /** A trace from a reachable state is a run. */
  lemma TraceIsRun(at: nat -> State, me: nat, before: seq<Event>, sched: nat -> Turn, k: nat) returns (log: seq<Event>)
    requires Follows(at, me, Run(before), sched)
    ensures at(k) == Run(log)
  {
    var path := (s: State, turn: Turn) => M.Theirs(IsMine(me), turn.others) + [Proceed(me, turn.ok)];
    forall s, turn ensures Advance(me)(s, turn) == M.RunFrom(Step, s, path(s, turn)) {
      M.RunSnoc(Step, s, M.Theirs(IsMine(me), turn.others), Proceed(me, turn.ok));
    }
    var after := M.TraceIsRun(Step, Advance(me), path, Run(before), sched, k);
    M.RunFromAppend(Step, Init, before, after);
    assert at(k) == Trace(me, Run(before), sched, k);
    log := before + after;
  }

  lemma OtherKeeps(me: nat, s: State, e: Event)
    requires !IsMine(me)(e) && me < |s.calls|
    ensures me < |Step(s, e).calls| && Step(s, e).calls[me] == s.calls[me]
  {}

  class Client {
    // the call in the foreground, what happened before it and what happens around it
    const me: nat
    const before: seq<Event>
    const sched: nat -> Turn
    var started: bool
    var connected: bool
    var readyDone: bool
    var workers: nat
    var readies: nat
    // the goroutines inside Start
    var calls: seq<Pc>
    // steps the foreground call has made
    var clock: nat

    ghost var s: State

    // the machine after the k-th own step, and at the k-th own step, after the others' part of that turn
    ghost const at: nat -> State
    ghost const mid: nat -> State

    ghost predicate Scheduled() {
      && Follows(at, me, Run(before), sched)
      && (forall k: nat {:trigger Others(me, at(k), sched(k).others)} :: mid(k) == Others(me, at(k), sched(k).others))
    }

    ghost predicate Valid()
      reads this
    {
      Scheduled() && s == State(started, connected, readyDone, calls, workers, readies)
    }

    ghost predicate OnTrack()
      reads this
    {
      Valid() && s == at(clock) && me < |calls|
    }

    ghost predicate InTurn()
      reads this
    {
      Valid() && s == mid(clock) && me < |calls|
    }

    /** The client after the events `before`, when the me-th Start call comes to the foreground. */
    constructor (me: nat, before: seq<Event>, sched: nat -> Turn)
      requires me < |Run(before).calls|
      ensures OnTrack() && clock == 0 && s == Run(before)
      ensures this.me == me && this.before == before && this.sched == sched
    {
      var start := Run(before);
      this.me, this.before, this.sched := me, before, sched;
      started, connected, readyDone, workers, readies := start.started, start.connected, start.readyDone, start.workers, start.readies;
      calls, clock, s := start.calls, 0, start;
      at := (k: nat) => Trace(me, Run(before), sched, k);
      mid := (k: nat) => Others(me, Trace(me, Run(before), sched, k), sched(k).others);
    }

    // ---- the atomic steps of Start, taken by call i ----

    method CompareAndSwap(i: nat, ok: bool) returns (won: bool)
      requires Valid() && i < |calls| && calls[i] == SwapStarted
      modifies this`started, this`calls, this`s
      ensures Valid() && s == Step(old(s), Proceed(i, ok)) && started && won == !old(started)
      ensures calls == old(calls)[i := if won then Connect else Returned(false)]
    {
      won := !started;
      started := true;
      calls := calls[i := if won then Connect else Returned(false)];
      s := Step(s, Proceed(i, ok));
    }

    /** doConnect or syncSubscriptions: the SDK decides. */
    method SdkCall(i: nat, ok: bool)
      requires Valid() && i < |calls| && (calls[i] == Connect || calls[i] == Subscribe)
      modifies this`calls, this`s
      ensures Valid() && s == Step(old(s), Proceed(i, ok))
      ensures calls == old(calls)[i := if old(calls)[i] == Connect then (if ok then Pc.StoreConnected else Pc.Rollback)
                                       else (if ok then Ready else CloseConn)]
    {
      calls := calls[i := if calls[i] == Connect then (if ok then Pc.StoreConnected else Pc.Rollback)
                          else (if ok then Ready else CloseConn)];
      s := Step(s, Proceed(i, ok));
    }

    /** The flag is set if the connection is up, and never cleared here. */
    method StoreConnected(i: nat, up: bool)
      requires Valid() && i < |calls| && calls[i] == Pc.StoreConnected
      modifies this`connected, this`calls, this`s
      ensures Valid() && s == Step(old(s), Proceed(i, up))
      ensures connected == (old(connected) || up) && calls == old(calls)[i := Subscribe]
    {
      if up { connected := true; }
      calls := calls[i := Subscribe];
      s := Step(s, Proceed(i, up));
    }

    method ConnClose(i: nat, ok: bool)
      requires Valid() && i < |calls| && calls[i] == CloseConn
      modifies this`calls, this`s
      ensures Valid() && s == Step(old(s), Proceed(i, ok)) && calls == old(calls)[i := Pc.Rollback]
    {
      calls := calls[i := Pc.Rollback];
      s := Step(s, Proceed(i, ok));
    }

    method Rollback(i: nat, ok: bool)
      requires Valid() && i < |calls| && calls[i] == Pc.Rollback
      modifies this`started, this`calls, this`s
      ensures Valid() && s == Step(old(s), Proceed(i, ok)) && !started && calls == old(calls)[i := Returned(true)]
    {
      started, calls := false, calls[i := Returned(true)];
      s := Step(s, Proceed(i, ok));
    }

    /** readyOnce.Do(OnReady) */
    method FireReady(i: nat, ok: bool)
      requires Valid() && i < |calls| && calls[i] == Ready
      modifies this`readyDone, this`readies, this`calls, this`s
      ensures Valid() && s == Step(old(s), Proceed(i, ok)) && readyDone && calls == old(calls)[i := Spawn]
      ensures readies == if old(readyDone) then old(readies) else old(readies) + 1
    {
      if !readyDone { readies := readies + 1; }
      readyDone, calls := true, calls[i := Spawn];
      s := Step(s, Proceed(i, ok));
    }

    method StartDrainPipe(i: nat, ok: bool)
      requires Valid() && i < |calls| && calls[i] == Spawn
      modifies this`workers, this`calls, this`s
      ensures Valid() && s == Step(old(s), Proceed(i, ok))
      ensures workers == old(workers) + 1 && calls == old(calls)[i := Returned(false)]
    {
      workers, calls := workers + 1, calls[i := Returned(false)];
      s := Step(s, Proceed(i, ok));
    }

    // ---- the other calls ----

    /** A new call, or the next step of one. */
    method Perform(e: Event)
      requires Valid()
      modifies this
      ensures Valid() && s == Step(old(s), e) && clock == old(clock)
    {
      match e {
        case Call =>
          calls := calls + [SwapStarted];
          s := Step(s, Call);
        case Proceed(i, ok) =>
          if i < |calls| {
            match calls[i] {
              case SwapStarted => var _ := CompareAndSwap(i, ok);
              case Connect => SdkCall(i, ok);
              case Subscribe => SdkCall(i, ok);
              case StoreConnected => StoreConnected(i, ok);
              case CloseConn => ConnClose(i, ok);
              case Rollback => Rollback(i, ok);
              case Ready => FireReady(i, ok);
              case Spawn => StartDrainPipe(i, ok);
              case Returned(_) =>
            }
          }
      }
    }

    /** Lets the other calls take their part of the next turn. */
    method Yield()
      requires OnTrack()
      modifies this
      ensures InTurn() && clock == old(clock) && calls[me] == old(calls[me])
    {
      var others := sched(clock).others;
      ghost var start := s;
      for k := 0 to |others|
        invariant Valid() && clock == old(clock) && s == Others(me, start, others[..k])
        invariant me < |calls| && calls[me] == start.calls[me]
      {
        M.TheirsSnoc(Step, IsMine(me), start, others, k);
        if !(others[k].Proceed? && others[k].i == me) {
          OtherKeeps(me, s, others[k]);
          Perform(others[k]);
        }
      }
      assert others[..|others|] == others && mid(clock) == Others(me, at(clock), sched(clock).others);
    }

    /** The foreground call has made the step that completes the turn. */
    method Tick()
      requires Valid() && me < |calls| && s == Step(mid(clock), Proceed(me, sched(clock).ok))
      modifies this`clock
      ensures OnTrack() && clock == old(clock) + 1
    {
      NextTurn(at, me, Run(before), sched, clock);
      assert mid(clock) == Others(me, at(clock), sched(clock).others);
      clock := clock + 1;
    }

    // ---- Start ----

    /** The SDK call the foreground call is at, answered as the schedule has it. */
    method Ask() returns (ok: bool)
      requires OnTrack() && (calls[me] == Connect || calls[me] == Subscribe)
      modifies this
      ensures OnTrack() && clock == old(clock) + 1 && ok == sched(old(clock)).ok
      ensures calls[me] == if old(calls[me]) == Connect then (if ok then Pc.StoreConnected else Pc.Rollback)
                           else (if ok then Ready else CloseConn)
    {
      Yield();
      ok := sched(clock).ok;
      SdkCall(me, ok);
      Tick();
    }

    /** started.Store(false): the last thing a failed call does. */
    method RollBack()
      requires OnTrack() && calls[me] == Pc.Rollback
      modifies this
      ensures OnTrack() && clock == old(clock) + 1 && calls[me] == Returned(true) && !started
    {
      Yield();
      Rollback(me, sched(clock).ok);
      Tick();
    }

    /** After a failed subscription: the connection is closed, then `started` is rolled back. */
    method CloseAndRollBack()
      requires OnTrack() && calls[me] == CloseConn
      modifies this
      ensures OnTrack() && clock == old(clock) + 2 && calls[me] == Returned(true) && !started
    {
      Yield();
      ConnClose(me, sched(clock).ok);
      Tick();
      RollBack();
    }

    /** OnReady, at most once, then the worker. */
    method ReadyAndSpawn()
      requires OnTrack() && calls[me] == Ready
      modifies this
      ensures OnTrack() && clock == old(clock) + 2 && calls[me] == Returned(false)
      ensures workers == mid(clock - 1).workers + 1
    {
      Yield();
      FireReady(me, sched(clock).ok);
      Tick();
      Yield();
      StartDrainPipe(me, sched(clock).ok);
      Tick();
    }

    /** The subscription half of Start: fails exactly when the subscription does, and then the connection is
        closed and `started` rolled back; otherwise it ends with a further worker. */
    method SubscribeAndSpawn() returns (err: bool)
      requires OnTrack() && calls[me] == Subscribe
      modifies this
      ensures OnTrack() && clock == old(clock) + 3 && calls[me] == Returned(err)
      ensures err == !sched(old(clock)).ok
      ensures err ==> !started
      ensures !err ==> workers == mid(clock - 1).workers + 1
    {
      var ok := Ask();
      if ok { ReadyAndSpawn(); } else { CloseAndRollBack(); }
      err := !ok;
    }

    method Swap() returns (won: bool)
      requires OnTrack() && calls[me] == SwapStarted
      modifies this
      ensures OnTrack() && clock == old(clock) + 1 && won == !mid(old(clock)).started
      ensures calls[me] == if won then Connect else Returned(false)
    {
      Yield();
      won := CompareAndSwap(me, sched(clock).ok);
      Tick();
    }

    method SetConnected()
      requires OnTrack() && calls[me] == Pc.StoreConnected
      modifies this
      ensures OnTrack() && clock == old(clock) + 1 && calls[me] == Subscribe
      ensures sched(old(clock)).ok ==> connected
    {
      Yield();
      StoreConnected(me, sched(clock).ok);
      Tick();
    }

    /** The body of Start, entered by the call that won the swap. */
    method Body() returns (err: bool)
      requires OnTrack() && calls[me] == Connect
      modifies this
      ensures OnTrack() && old(clock) < clock && calls[me] == Returned(err)
      ensures err <==> !sched(old(clock)).ok || !sched(old(clock) + 2).ok
      ensures err ==> !started
      ensures !err ==> workers == mid(clock - 1).workers + 1
    {
      var ok := Ask();
      if ok {
        SetConnected();
        err := SubscribeAndSpawn();
      } else {
        RollBack();
        err := true;
      }
    }

    /** Start, as the me-th call, interleaved with any other Start calls.  Only the call that finds `started`
        unset does anything; it fails exactly when the connection or the subscription does, leaving `started`
        unset, and otherwise leaves exactly one worker.  Whatever the others do, there is at most one worker
        and OnReady has fired at most once. */
    method Start() returns (err: bool, won: bool)
      requires OnTrack() && calls[me] == SwapStarted
      modifies this
      ensures OnTrack() && calls[me] == Returned(err) && won == !mid(old(clock)).started
      ensures err <==> won && (!sched(old(clock) + 1).ok || !sched(old(clock) + 3).ok)
      ensures err ==> !started
      ensures won && !err ==> workers == 1 && started
      ensures workers <= 1 && readies <= 1
    {
      won := Swap();
      err := false;
      if won { err := Body(); }
      ghost var log := TraceIsRun(at, me, before, sched, clock);
      StartsAtMostOneWorker(log);
    }
  }
}
