/** The RabbitMQ consumer in the form the source gives it: the two WaitGroups as counters updated in
    place, the delivery callback, SyncSubscribe and Close each in the foreground in turn, with the other
    goroutines interleaved.  Valid ties the fields to the machine's state `s`, OnTrack that state to the
    trace of the foreground goroutine. */
module RabbitSubscriber {
  import M = Machine
  import opened RabbitConsumer
  import opened RabbitTrace

  datatype Action = NackRequeue | Handed

  /** What subWg counts. */
  function InGroup(hs: seq<Handler>): nat {
    if hs == [] then 0
    else InGroup(hs[..|hs| - 1]) + if InWaitGroup(hs[|hs| - 1]) then 1 else 0
  }

  lemma InGroupSnoc(hs: seq<Handler>, h: Handler)
    ensures InGroup(hs + [h]) == InGroup(hs) + if InWaitGroup(h) then 1 else 0
  {
    assert (hs + [h])[..|hs|] == hs;
  }

  lemma {:induction false} InGroupUpdate(hs: seq<Handler>, i: nat, h: Handler)
    requires i < |hs|
    ensures InGroup(hs[i := h]) + (if InWaitGroup(hs[i]) then 1 else 0) == InGroup(hs) + if InWaitGroup(h) then 1 else 0
    decreases |hs|
  {
    var n := |hs| - 1;
    if i == n {
      assert hs[i := h][..n] == hs[..n];
    } else {
      InGroupUpdate(hs[..n], i, h);
      assert hs[i := h][..n] == hs[..n][i := h];
    }
  }

  lemma {:induction false} InGroupZero(hs: seq<Handler>)
    ensures InGroup(hs) == 0 <==> WaitGroupZero(hs)
    decreases |hs|
  {
    if hs != [] {
      var n := |hs| - 1;
      InGroupZero(hs[..n]);
      assert WaitGroupZero(hs) ==> WaitGroupZero(hs[..n]);
      assert forall i :: 0 <= i < n ==> hs[i] == hs[..n][i];
    }
  }

  class Consumer {
    // the goroutine in the foreground, what happened before it, what happens around it, and the number
    // of its steps after which observation ends
    const me: Role
    const before: seq<Event>
    const sched: nat -> Turn
    const horizon: nat
    var isClosed: bool
    var subWg: nat
    var wg: nat
    // deliveries in progress, SyncSubscribe, the winning Close call
    var hs: seq<Handler>
    var sub: SubPc
    var close: ClosePc
    // atomic steps the foreground goroutine has made
    var clock: nat

    ghost var s: State

    // the machine after the k-th own step, and at the k-th own step, after the others' part of that turn
    ghost const at: nat -> State
    ghost const mid: nat -> State

    ghost predicate Scheduled() {
      && Follows(at, me, Run(before), sched)
      && (forall k: nat {:trigger Others(me, at(k), sched(k).others)} :: mid(k) == Others(me, at(k), sched(k).others))
    }

    ghost predicate Valid()
      reads this
    {
      && Scheduled()
      && s.hs == hs && s.sh == Shared(isClosed, sub, close)
      && subWg == InGroup(hs)
      && wg == if sub.Exited? then 0 else 1
    }

    ghost predicate OnTrack()
      reads this
    {
      Valid() && s == at(clock)
    }

    ghost predicate InTurn()
      reads this
    {
      Valid() && s == mid(clock)
    }

    /** The consumer after the events `before`, when the goroutine `me` comes to the foreground. */
    constructor (me: Role, before: seq<Event>, sched: nat -> Turn, horizon: nat)
      ensures OnTrack() && clock == 0 && s == Run(before)
      ensures this.me == me && this.before == before && this.sched == sched && this.horizon == horizon
    {
      var start := Run(before);
      this.me, this.before, this.sched, this.horizon := me, before, sched, horizon;
      isClosed, hs, sub, close := start.sh.isClosed, start.hs, start.sh.sub, start.sh.close;
      subWg, wg := InGroup(start.hs), if start.sh.sub.Exited? then 0 else 1;
      clock, s := 0, start;
      at := (k: nat) => Trace(me, Run(before), sched, k);
      mid := (k: nat) => Others(me, Trace(me, Run(before), sched, k), sched(k).others);
    }

    // ---- atomic steps ----

    /** Run calls the handler for a new delivery. */
    method Deliver()
      requires Valid() && sub.InRun?
      modifies this`hs, this`s
      ensures Valid() && s == Step(old(s), Event.Deliver) && hs == old(hs) + [Handler(Called, false, false)]
    {
      InGroupSnoc(hs, Handler(Called, false, false));
      hs := hs + [Handler(Called, false, false)];
      s := Step(s, Event.Deliver);
    }

    /** The next step of a delivery: count it, check isClosed, run the message handler, uncount it. */
    method HandleStep(i: nat)
      requires Valid() && i < |hs|
      modifies this`hs, this`subWg, this`s
      ensures Valid() && s == Step(old(s), Handle(i)) && hs == old(hs)[i := Advance(old(hs)[i], isClosed)]
    {
      var h := hs[i];
      InGroupUpdate(hs, i, Advance(h, isClosed));
      match h.pc {
        case Called => subWg, h := subWg + 1, h.(pc := Counted);
        case Counted => h := if isClosed then h.(pc := Finishing, sawClosed := true) else h.(pc := Running, ran := true);
        case Running => h := h.(pc := Finishing);
        case Finishing => subWg, h := subWg - 1, h.(pc := Done);
        case Done =>
      }
      hs := hs[i := h];
      s := Step(s, Handle(i));
    }

    method RunReturns()
      requires Valid() && sub.InRun?
      modifies this`sub, this`s
      ensures Valid() && s == Step(old(s), ReturnRun) && sub == RunReturned
      ensures s.clean == (isClosed || AllCounted(hs))
    {
      sub := RunReturned;
      s := Step(s, ReturnRun);
    }

    /** subWg.Wait, then wg.Done; the wait is over with the counter at zero. */
    method SubAdvance()
      requires Valid()
      modifies this`sub, this`wg, this`s
      ensures Valid() && s == Step(old(s), SubNext)
      ensures sub == if old(sub).Waited? then Exited else if old(sub).RunReturned? && subWg == 0 then Waited else old(sub)
    {
      InGroupZero(hs);
      if sub.Waited? { sub, wg := Exited, 0; } else if sub.RunReturned? && subWg == 0 { sub := Waited; }
      s := Step(s, SubNext);
    }

    /** isClosed.CompareAndSwap(false, true) */
    method CloseSwap() returns (won: bool)
      requires Valid()
      modifies this`isClosed, this`close, this`s
      ensures Valid() && s == Step(old(s), CloseCall) && won == !old(isClosed) && isClosed
      ensures close == if won then Swapped else old(close)
    {
      won := !isClosed;
      if won { isClosed, close := true, Swapped; }
      s := Step(s, CloseCall);
    }

    /** consumer.Close, wg.Wait, conn.Close; the wait is over with the counter at zero. */
    method CloseAdvance()
      requires Valid()
      modifies this`close, this`s
      ensures Valid() && s == Step(old(s), CloseNext)
      ensures close == match old(close)
                       case Swapped => ConsumerClosed
                       case ConsumerClosed => (if wg == 0 then GroupDone else ConsumerClosed)
                       case GroupDone => ConnClosed
                       case other => other
    {
      match close {
        case Swapped => close := ConsumerClosed;
        case ConsumerClosed => if wg == 0 { close := GroupDone; }
        case GroupDone => close := ConnClosed;
        case _ =>
      }
      s := Step(s, CloseNext);
    }

    // ---- the other goroutines ----

    /** One step of a goroutine; nothing if it is not at it. */
    method Perform(e: Event)
      requires Valid()
      modifies this
      ensures Valid() && s == Step(old(s), e) && clock == old(clock)
    {
      match e {
        case Deliver => if sub.InRun? { Deliver(); }
        case Handle(i) => if i < |hs| { HandleStep(i); }
        case ReturnRun => if sub.InRun? { RunReturns(); }
        case SubNext => SubAdvance();
        case CloseCall => var _ := CloseSwap();
        case CloseNext => CloseAdvance();
      }
    }

    /** Lets the other goroutines take their part of the next turn. */
    method Yield()
      requires OnTrack()
      modifies this
      ensures InTurn() && clock == old(clock) && Kept(me, old(s), s)
    {
      var others := sched(clock).others;
      ghost var start := s;
      for i := 0 to |others|
        invariant Valid() && clock == old(clock) && s == Others(me, start, others[..i]) && Kept(me, start, s)
      {
        M.TheirsSnoc(Step, IsMine(me), start, others, i);
        if !Mine(me, others[i]) {
          OtherKeeps(me, s, others[i]);
          Perform(others[i]);
        }
      }
      assert others[..|others|] == others && mid(clock) == Others(me, at(clock), sched(clock).others);
    }

    /** The foreground goroutine has made the step that completes the turn. */
    method Tick()
      requires Valid() && s == Step(mid(clock), OwnEvent(me, clock, mid(clock), sched(clock)))
      modifies this`clock
      ensures OnTrack() && clock == old(clock) + 1
    {
      NextTurn(at, me, Run(before), sched, clock);
      assert mid(clock) == Others(me, at(clock), sched(clock).others);
      clock := clock + 1;
    }

    // ---- a delivery ----

    method Continue(i: nat)
      requires OnTrack() && me == Delivery(i) && i < |hs|
      modifies this
      ensures OnTrack() && clock == old(clock) + 1 && i < |hs|
      ensures hs[i] == Advance(old(hs[i]), mid(old(clock)).sh.isClosed)
    {
      Yield();
      HandleStep(i);
      Tick();
    }

    /** The delivery callback: counted first, then checked.  A delivery that sees isClosed goes back to the
        queue unhandled, any other is handled and not requeued; either way it ends uncounted. */
    method OnDelivery(i: nat) returns (action: Action)
      requires OnTrack() && me == Delivery(i) && i < |hs| && hs[i] == Handler(Called, false, false)
      modifies this
      ensures OnTrack() && i < |hs| && clock == old(clock) + if action.NackRequeue? then 3 else 4
      ensures action.NackRequeue? <==> mid(old(clock) + 1).sh.isClosed
      ensures hs[i] == if action.NackRequeue? then Handler(Done, true, false) else Handler(Done, false, true)
    {
      Continue(i);
      Continue(i);
      action := if hs[i].sawClosed then NackRequeue else Handed;
      if !hs[i].sawClosed { Continue(i); }
      Continue(i);
    }

    // ---- SyncSubscribe ----

    /** One step of waiting: on Run, on subWg, or the deferred wg.Done. */
    method WaitStep()
      requires OnTrack() && me == Subscription && (sub.InRun? ==> !sched(clock).runEnds)
      modifies this
      ensures OnTrack() && clock == old(clock) + 1
      ensures var k := old(clock);
        sub == if old(sub).Waited? then Exited
               else if old(sub).RunReturned? && WaitGroupZero(mid(k).hs) then Waited else old(sub)
    {
      Yield();
      InGroupZero(hs);
      SubAdvance();
      Tick();
    }

    /** Run blocks until it returns. */
    method RunBlocks() returns (returned: bool)
      requires OnTrack() && me == Subscription && sub.InRun?
      modifies this
      ensures OnTrack() && old(clock) <= clock
      ensures if returned then sub == RunReturned else clock >= horizon
    {
      while clock < horizon
        invariant OnTrack() && old(clock) <= clock && sub.InRun?
        decreases horizon - clock
      {
        if sched(clock).runEnds {
          Yield();
          RunReturns();
          Tick();
          return true;
        }
        WaitStep();
      }
      return false;
    }

    /** subWg.Wait, then the return with its deferred wg.Done. */
    method AwaitHandlers()
      requires OnTrack() && me == Subscription && sub == RunReturned
      modifies this
      ensures OnTrack() && old(clock) <= clock
      ensures clock >= horizon || sub.Exited?
    {
      while clock < horizon && sub.RunReturned?
        invariant OnTrack() && old(clock) <= clock && (sub.RunReturned? || sub.Waited?)
        decreases horizon - clock
      {
        WaitStep();
      }
      if sub.Waited? { WaitStep(); }
    }

    /** SyncSubscribe: Run until it returns, then wait for the counted handlers, then leave, exactly as its
        trace says.  Once Run has returned and its deliveries are done that takes two steps. */
    method SyncSubscribe()
      requires OnTrack() && me == Subscription && sub.InRun?
      modifies this
      ensures OnTrack() && old(clock) <= clock
      ensures clock >= horizon || (sub.Exited? && wg == 0)
      ensures forall k: nat :: Quieted(at(k)) && k + 2 <= horizon ==> sub.Exited? && wg == 0
    {
      var returned := RunBlocks();
      if returned { AwaitHandlers(); }
      if clock >= horizon {
        forall k: nat | Quieted(at(k)) && k + 2 <= horizon ensures sub.Exited? {
          SubscriptionEndsWithin(at, Run(before), sched, k, clock - k);
        }
      }
    }

    // ---- Close ----

    method Swap() returns (won: bool)
      requires OnTrack() && me == Closer && clock == 0
      modifies this
      ensures OnTrack() && clock == 1 && isClosed && won == !mid(0).sh.isClosed && (won ==> close == Swapped)
    {
      Yield();
      won := CloseSwap();
      Tick();
    }

    method CloseStep()
      requires OnTrack() && me == Closer && clock > 0 && isClosed
      modifies this
      ensures OnTrack() && clock == old(clock) + 1 && isClosed
      ensures close == match old(close)
                       case Swapped => ConsumerClosed
                       case ConsumerClosed => (if mid(old(clock)).sh.sub.Exited? then GroupDone else ConsumerClosed)
                       case GroupDone => ConnClosed
                       case other => other
    {
      Yield();
      CloseAdvance();
      Tick();
    }

    /** consumer.Close, wg.Wait, conn.Close */
    method FinishClose()
      requires OnTrack() && me == Closer && clock > 0 && isClosed && close == Swapped
      modifies this
      ensures OnTrack() && old(clock) <= clock && isClosed
      ensures clock >= horizon || close.ConnClosed?
    {
      CloseStep();
      while clock < horizon && close == ConsumerClosed
        invariant OnTrack() && old(clock) <= clock && 0 < clock && isClosed && (close == ConsumerClosed || close == GroupDone)
        decreases horizon - clock
      {
        CloseStep();
      }
      if close == GroupDone { CloseStep(); }
    }

    /** Close: only the call that wins the swap acts; it stops the consumer, waits for SyncSubscribe and then
        closes the connection, exactly as its trace says; with SyncSubscribe gone that takes three steps.  No
        message handler is running then, unless Run had failed before with an uncounted handler under way. */
    method Close() returns (won: bool)
      requires OnTrack() && me == Closer && clock == 0
      modifies this
      ensures OnTrack() && isClosed && won == !mid(0).sh.isClosed
      ensures !won ==> clock == 1
      ensures won ==> clock >= horizon || close.ConnClosed?
      ensures won ==> forall k: nat :: 0 < k && Past(at(k)) && k + 3 <= horizon ==> close.ConnClosed?
      ensures s.clean && close.ConnClosed? ==> wg == 0 && !HandlerRunning(s)
    {
      won := Swap();
      if won {
        FinishClose();
        if clock >= horizon {
          forall k: nat | 0 < k && Past(at(k)) && k + 3 <= horizon ensures close.ConnClosed? {
            CloseEndsWithin(at, Run(before), sched, k, clock - k);
          }
        }
      }
      ghost var log := TraceIsRun(at, me, before, sched, clock);
      CloseFirstIsQuiet(log);
    }

    /** A Close call is past its swap and SyncSubscribe has returned. */
    ghost predicate Past(s: State) { s.sh.sub.Exited? && s.sh.isClosed && !s.sh.close.NotCalled? }
  }
}
