/** The clients in the form the source gives them: fields updated in place, Publish and Close split at
    their atomic points, and the worker goroutine as nested loops over a reused buffer.  The ghost state
    `s` is that of the machine, and Valid ties the fields to it.  A worker loop is played against a
    schedule of everything around its atomic steps; `clock` counts those steps, and OnTrack says that the
    client is exactly where PipeTrace puts it after so many of them. */
module PipeClient {
  import M = Machine
  import opened DrainPipe
  import opened PipeTrace
  import T = DrainPipeTheorems

  /** How a delivery went: done, given up with the worker gone, or observation ended on the way. */
  datatype Outcome = Delivered | GaveUp | Cut

  /** How a pass of a retry loop ended. */
  datatype Pass = Sent | Left | Again

  class Client {
    const policy: Policy
    const queueSize: nat
    // the schedule, and the number of worker steps after which observation ends
    const sched: nat -> Turn
    const horizon: nat
    // LockedRingBuffer, as its callers see it
    var queue: seq<Message>
    var sealed: bool
    // atomics, context, SDK client, WaitGroup
    var draining: bool
    var connected: bool
    var ctxDone: bool
    var torn: bool
    var wg: nat
    // goroutines inside Publish (past the draining check) and inside Close
    var calls: map<nat, Message>
    var closing: Closing
    // atomic steps the worker has made
    var clock: nat

    ghost var s: State

    // the machine after the worker's k-th step, and at its k-th step, after the others' part of that turn
    ghost const at: nat -> State
    ghost const mid: nat -> State

    ghost predicate Scheduled() {
      && Follows(at, policy, queueSize, sched)
      && (forall k: nat {:trigger Others(policy, at(k), sched(k).others)} :: mid(k) == Others(policy, at(k), sched(k).others))
    }

    ghost predicate Valid()
      reads this
    {
      && queueSize > 0 && Scheduled()
      && s.q == Queue(queue, sealed)
      && s.f == Flags(draining, connected, ctxDone, torn)
      && s.calls == calls && s.close == closing
    }

    /** The WaitGroup counts a worker until its deferred Done. */
    ghost predicate Counted()
      reads this
    {
      wg == if s.w.pc.Exited? then 0 else 1
    }

    /** What the worker's k-th step reads. */
    ghost function Seen(k: nat): Flags { mid(k).f }

    ghost predicate OnTrack()
      reads this
    {
      Valid() && s == at(clock) && wg == 1
    }

    ghost predicate InTurn()
      reads this
    {
      Valid() && s == mid(clock) && wg == 1
    }

    /** The client just after startDrainPipe registered its worker. */
    constructor (policy: Policy, queueSize: nat, sched: nat -> Turn, horizon: nat)
      requires queueSize > 0
      ensures OnTrack() && clock == 0 && s == Init
      ensures this.policy == policy && this.queueSize == queueSize && this.sched == sched && this.horizon == horizon
    {
      this.policy, this.queueSize, this.sched, this.horizon := policy, queueSize, sched, horizon;
      queue, sealed, clock := [], false, 0;
      draining, connected, ctxDone, torn, wg := false, false, false, false, 1;
      calls, closing, s := map[], NotCalled, Init;
      at := (k: nat) => Trace(policy, queueSize, sched, k);
      mid := (k: nat) => Others(policy, Trace(policy, queueSize, sched, k), sched(k).others);
    }

    // ---- Publish ----

    /** Publish up to the draining check; a call that passes it is entered in `calls`. */
    method PublishCheck(id: nat, msg: Message) returns (passed: bool)
      requires Valid() && id !in calls
      modifies this`calls, this`s
      ensures Valid() && s == Step(policy, old(s), Event.PublishCheck(id, msg))
      ensures passed == !(draining && (policy.Mqtt? || policy.NatsCore? || policy.JetStream?))
      ensures calls == if passed then old(calls)[id := msg] else old(calls)
    {
      passed := !(policy.ChecksDraining() && draining);
      if passed { calls := calls[id := msg]; }
      s := Step(policy, s, Event.PublishCheck(id, msg));
    }

    /** The Enqueue of a Publish call: false when the queue is closed. */
    method PublishEnqueue(id: nat) returns (ok: bool)
      requires Valid() && id in calls
      modifies this`calls, this`queue, this`s
      ensures Valid() && s == Step(policy, old(s), Event.PublishEnqueue(id))
      ensures ok == !sealed && calls == old(calls) - {id}
      ensures queue == if ok then old(queue) + [old(calls)[id]] else old(queue)
    {
      ok := !sealed;
      if ok { queue := queue + [calls[id]]; }
      calls := calls - {id};
      s := Step(policy, s, Event.PublishEnqueue(id));
    }

    /** The Enqueue of a Publish call when the ring buffer is full: false. */
    method PublishFull(id: nat) returns (ok: bool)
      requires Valid()
      modifies this`calls, this`s
      ensures Valid() && s == Step(policy, old(s), Event.PublishFull(id))
      ensures !ok && calls == old(calls) - {id}
    {
      ok := false;
      calls := calls - {id};
      s := Step(policy, s, Event.PublishFull(id));
    }

    // ---- Close ----

    /** Close: the swap.  Only the call that finds false goes on. */
    method CloseSwap() returns (won: bool)
      requires Valid()
      modifies this`draining, this`closing, this`s
      ensures Valid() && s == Step(policy, old(s), CloseCall)
      ensures won == !old(draining) && draining
      ensures closing == if won then Swapped else old(closing)
    {
      won := !draining;
      if won { draining, closing := true, Swapped; }
      s := Step(policy, s, CloseCall);
    }

    /** Close: the queue is sealed. */
    method CloseSeal()
      requires Valid() && closing.Swapped? && !policy.Rabbit?
      modifies this`sealed, this`closing, this`s
      ensures Valid() && s == Step(policy, old(s), CloseNext) && closing == Waiting && sealed
    {
      closing, sealed := Waiting, true;
      s := Step(policy, s, CloseNext);
    }

    /** RabbitMQ's Close cancels the context instead and leaves the sealing to Start. */
    method CloseSignal()
      requires Valid() && closing.Swapped? && policy.Rabbit?
      modifies this`ctxDone, this`closing, this`s
      ensures Valid() && s == Step(policy, old(s), CloseNext) && closing == Waiting && ctxDone
    {
      closing, ctxDone := Waiting, true;
      s := Step(policy, s, CloseNext);
    }

    /** RabbitMQ's Start: once its context is done it seals the queue. */
    method SealOnCancel()
      requires Valid() && policy.Rabbit? && ctxDone
      modifies this`sealed, this`s
      ensures Valid() && s == Step(policy, old(s), Event.SealOnCancel) && sealed
    {
      sealed := true;
      s := Step(policy, s, Event.SealOnCancel);
    }

    /** Close: the select between the WaitGroup and the 20 s timer; blocks while neither is ready. */
    method CloseSelect(timeout: bool)
      requires Valid() && Counted() && closing.Waiting?
      modifies this`closing, this`s
      ensures Valid() && s == Step(policy, old(s), if timeout then CloseTimeout else CloseDrained)
      ensures closing == if timeout then Leaving(false) else if wg == 0 then Leaving(true) else Waiting
    {
      if timeout { closing := Leaving(false); } else if wg == 0 { closing := Leaving(true); }
      s := Step(policy, s, if timeout then CloseTimeout else CloseDrained);
    }

    /** Close: disconnect, close or shut down the SDK client. */
    method CloseTearDown()
      requires Valid() && closing.Leaving?
      modifies this`torn, this`closing, this`s
      ensures Valid() && s == Step(policy, old(s), CloseNext) && torn && closing == TornDown(old(closing).drained)
    {
      torn, closing := true, TornDown(closing.drained);
      s := Step(policy, s, CloseNext);
    }

    /** Close: cancel the context. */
    method CloseCancel()
      requires Valid() && closing.TornDown?
      modifies this`ctxDone, this`closing, this`s
      ensures Valid() && s == Step(policy, old(s), CloseNext) && ctxDone && closing == Finished(old(closing).drained)
    {
      ctxDone, closing := true, Finished(closing.drained);
      s := Step(policy, s, CloseNext);
    }

    /** The parent context is cancelled, or the SDK reports the link up or down. */
    method Environment(e: Event)
      requires Valid() && (e.CtxCancel? || e.LinkUp? || e.LinkDown?)
      modifies this`ctxDone, this`connected, this`s
      ensures Valid() && s == Step(policy, old(s), e)
      ensures ctxDone == (old(ctxDone) || e.CtxCancel?)
      ensures connected == if e.LinkUp? then true else if e.LinkDown? then false else old(connected)
    {
      if e.CtxCancel? { ctxDone := true; } else { connected := e.LinkUp?; }
      s := Step(policy, s, e);
    }

    method PerformClose(e: Event)
      requires Valid() && Counted() && (e.CloseCall? || e.CloseNext? || e.CloseDrained? || e.CloseTimeout?)
      modifies this
      ensures Valid() && s == Step(policy, old(s), e) && clock == old(clock) && wg == old(wg)
    {
      if e.CloseCall? { var _ := CloseSwap(); }
      else if e.CloseNext? {
        if closing.Swapped? { if policy.Rabbit? { CloseSignal(); } else { CloseSeal(); } }
        else if closing.Leaving? { CloseTearDown(); }
        else if closing.TornDown? { CloseCancel(); }
      }
      else if closing.Waiting? { CloseSelect(e.CloseTimeout?); }
    }

    method PerformPublish(e: Event)
      requires Valid() && (e.PublishCheck? || e.PublishEnqueue? || e.PublishFull?)
      modifies this
      ensures Valid() && s == Step(policy, old(s), e) && clock == old(clock) && wg == old(wg)
    {
      if e.PublishCheck? { if e.id !in calls { var _ := PublishCheck(e.id, e.msg); } }
      else if e.PublishEnqueue? { if e.id in calls { var _ := PublishEnqueue(e.id); } }
      else { var _ := PublishFull(e.id); }
    }

    /** One step of a goroutine other than the worker; nothing if that goroutine is not at it. */
    method Perform(e: Event)
      requires Valid() && Counted() && !IsWork(e)
      modifies this
      ensures Valid() && s == Step(policy, old(s), e) && clock == old(clock) && wg == old(wg)
    {
      if e.PublishCheck? || e.PublishEnqueue? || e.PublishFull? { PerformPublish(e); }
      else if e.SealOnCancel? { if policy.Rabbit? && ctxDone { SealOnCancel(); } }
      else if e.CtxCancel? || e.LinkUp? || e.LinkDown? { Environment(e); }
      else { PerformClose(e); }
    }

    /** Lets the other goroutines take their part of the worker's next turn. */
    method Yield()
      requires OnTrack() && !s.w.pc.Exited?
      modifies this
      ensures InTurn() && clock == old(clock) && s.w == old(s.w)
      ensures s.h.delivered == old(s.h.delivered) && s.h.attempts == old(s.h.attempts)
    {
      var others := sched(clock).others;
      ghost var start := s;
      for i := 0 to |others|
        invariant Valid() && wg == 1 && clock == old(clock) && s == Others(policy, start, others[..i])
        invariant s.w == start.w && s.h.delivered == start.h.delivered && s.h.attempts == start.h.attempts
      {
        M.TheirsSnoc(Stepper(policy), IsWork, start, others, i);
        if !IsWork(others[i]) {
          OtherKeepsWorker(policy, s, others[i]);
          Perform(others[i]);
        }
      }
      assert others[..|others|] == others && mid(clock) == Others(policy, at(clock), sched(clock).others);
    }

    /** The worker's own step completes the turn. */
    ghost method Own(e: Event)
      requires Scheduled() && s == mid(clock) && e == OwnEvent(queueSize, s, sched(clock).reply)
      modifies this`s
      ensures s == Step(policy, old(s), e) && s == at(clock + 1)
    {
      s := Step(policy, s, e);
      NextTurn(at, policy, queueSize, sched, clock);
      assert mid(clock) == Others(policy, at(clock), sched(clock).others);
    }

    // ---- atomic steps of the worker ----

    ghost predicate AtHead()
      reads this
    {
      s.w.pc == Head(policy) && s.w.batch != []
    }

    /** Only the worker's position, and what a load records, are new. */
    ghost predicate Moved(w: Worker, h: History)
      reads this
    {
      s.w.batch == w.batch && s.h.delivered == h.delivered && s.h.attempts == h.attempts
    }

    /** The head of the batch is delivered and gone from it. */
    ghost predicate Advanced(w: Worker, h: History)
      reads this
    {
      && w.batch != [] && s.w.batch == w.batch[1..] && s.h.delivered == h.delivered + [w.batch[0]]
      && s.w.pc == if |w.batch| == 1 then Dequeuing else Head(policy)
    }

    method LoadCtxErr() returns (done: bool)
      requires OnTrack() && (s.w.pc.LoadCtxFirst? || s.w.pc.LoadCtx?)
      modifies this
      ensures OnTrack() && clock == old(clock) + 1 && done == Seen(old(clock)).ctxDone
      ensures s.w.pc == AfterLoad(policy, old(s.w.pc), done) && Moved(old(s.w), old(s.h))
      ensures s.w.forced == old(s.w.forced)
    {
      Yield();
      done := ctxDone;
      Own(Load);
      clock := clock + 1;
    }

    method LoadConnected() returns (up: bool)
      requires OnTrack() && (s.w.pc.LoadLink? || s.w.pc.LoadLinkAgain?)
      modifies this
      ensures OnTrack() && clock == old(clock) + 1 && up == Seen(old(clock)).connected
      ensures s.w.pc == AfterLoad(policy, old(s.w.pc), up) && Moved(old(s.w), old(s.h))
      ensures s.w.forced == old(s.w.forced)
    {
      Yield();
      up := connected;
      Own(Load);
      clock := clock + 1;
    }

    method LoadDraining() returns (v: bool)
      requires OnTrack() && (s.w.pc.LoadMode? || s.w.pc.LoadDrainingOnError? || s.w.pc.LoadDraining?)
      modifies this
      ensures OnTrack() && clock == old(clock) + 1 && v == Seen(old(clock)).draining
      ensures s.w.pc == AfterLoad(policy, old(s.w.pc), v) && Moved(old(s.w), old(s.h))
      ensures s.w.forced == if old(s.w.pc).LoadMode? then v else old(s.w.forced)
    {
      Yield();
      v := draining;
      Own(Load);
      clock := clock + 1;
    }

    /** The SDK call starts. */
    method StartSend(msg: Message, forced: bool)
      requires OnTrack() && s.w.pc.Sending? && s.w.batch != [] && msg == s.w.batch[0]
      requires policy.Rocket? ==> forced == s.w.forced
      modifies this
      ensures OnTrack() && clock == old(clock) + 1 && s.w == old(s.w).(pc := Awaiting, tried := true)
      ensures s.h.attempts == old(s.h.attempts) + [Attempt(msg, Seen(old(clock)).torn, old(s.w.forced))]
      ensures s.h.delivered == old(s.h.delivered)
    {
      Yield();
      Own(Send);
      clock := clock + 1;
    }

    /** It returns. */
    method EndSend() returns (r: Reply)
      requires OnTrack() && s.w.pc.Awaiting? && s.w.batch != []
      modifies this
      ensures OnTrack() && clock == old(clock) + 1 && r == sched(old(clock)).reply
      ensures s.h.attempts == old(s.h.attempts)
      ensures r.Ok? ==> Advanced(old(s.w), old(s.h))
      ensures !r.Ok? ==> s.w == old(s.w).(pc := AfterFailure(policy, r)) && s.h.delivered == old(s.h.delivered)
    {
      Yield();
      r := sched(clock).reply;
      Own(Answer(r));
      clock := clock + 1;
    }

    /** The SDK call: one attempt of exactly this message, in the mode chosen; delivered if it succeeds.
        `forced` is RocketMQ's drainPublish. */
    method SdkSend(msg: Message, forced: bool) returns (r: Reply)
      requires OnTrack() && s.w.pc.Sending? && s.w.batch != [] && msg == s.w.batch[0]
      requires policy.Rocket? ==> forced == s.w.forced
      modifies this
      ensures OnTrack() && clock == old(clock) + 2 && r == sched(old(clock) + 1).reply
      ensures s.h.attempts == old(s.h.attempts) + [Attempt(msg, Seen(old(clock)).torn, old(s.w.forced))]
      ensures r.Ok? ==> Advanced(old(s.w), old(s.h))
      ensures !r.Ok? ==> s.w.batch == old(s.w.batch) && s.w.pc == AfterFailure(policy, r) && s.h.delivered == old(s.h.delivered)
    {
      StartSend(msg, forced);
      r := EndSend();
    }

    /** A look that finds the queue empty and open. */
    method LookAgain()
      requires InTurn() && s.w.pc.Dequeuing? && queue == [] && !sealed
      modifies this`clock, this`s
      ensures OnTrack() && clock == old(clock) + 1 && s == old(s) && mid(old(clock)).q == Queue([], false)
    {
      Own(Dequeue(0));
      clock := clock + 1;
    }

    /** Blocks until the queue has a message or is closed, each look at it a step; `cut`: observation
        ended while the call was still blocked. */
    method AwaitQueue() returns (cut: bool)
      requires OnTrack() && s.w.pc.Dequeuing?
      modifies this
      ensures old(clock) <= clock && s.w == old(s.w) && s.h.delivered == old(s.h.delivered)
      ensures cut ==> OnTrack() && clock >= horizon
      ensures !cut ==> InTurn() && (queue != [] || sealed)
      ensures forall j: nat :: old(clock) <= j < clock ==> mid(j).q == Queue([], false)
    {
      Yield();
      while queue == [] && !sealed
        invariant InTurn() && old(clock) <= clock && s.w == old(s.w) && s.h.delivered == old(s.h.delivered)
        invariant forall j: nat :: old(clock) <= j < clock ==> mid(j).q == Queue([], false)
        decreases horizon - clock
      {
        LookAgain();
        if clock >= horizon { return true; }
        Yield();
      }
      cut := false;
    }

    /** DequeueTo once it no longer blocks: moves the head of the queue to the buffer. */
    method Take(buffer: array<Message>) returns (n: nat)
      requires InTurn() && s.w.pc.Dequeuing? && buffer.Length == queueSize && (queue != [] || sealed)
      modifies this`queue, this`clock, this`s, buffer
      ensures OnTrack() && clock == old(clock) + 1 && s.h.delivered == old(s.h.delivered)
      ensures n == M.Min(|old(queue)|, queueSize) && buffer[..n] == old(queue)[..n] && queue == old(queue)[n..]
      ensures n == 0 ==> s.w.pc.Exited? && sealed && old(queue) == []
      ensures n > 0 ==> AtHead() && s.w.batch == buffer[..n]
    {
      n := M.Min(|queue|, buffer.Length);
      forall i | 0 <= i < n { buffer[i] := queue[i]; }
      assert buffer[..n] == queue[..n];
      queue := queue[n..];
      Own(Dequeue(n));
      clock := clock + 1;
    }

    /** Blocking DequeueTo: 0 only when the queue is closed and empty, else the head of the queue; it goes on
        waiting only through looks that find the queue empty and open. */
    method DequeueTo(buffer: array<Message>) returns (n: nat, cut: bool)
      requires OnTrack() && s.w.pc.Dequeuing? && buffer.Length == queueSize
      modifies this, buffer
      ensures OnTrack() && old(clock) <= clock && s.h.delivered == old(s.h.delivered)
      ensures cut ==> clock >= horizon && s.w.pc.Dequeuing?
      ensures forall j: nat :: old(clock) <= j < (if cut then clock else clock - 1) ==> mid(j).q == Queue([], false)
      ensures !cut ==> old(clock) < clock && n == M.Min(|mid(clock - 1).q.items|, queueSize) <= buffer.Length
      ensures !cut ==> buffer[..n] == mid(clock - 1).q.items[..n]
      ensures !cut && n == 0 ==> s.w.pc.Exited? && sealed && queue == []
      ensures !cut && n > 0 ==> AtHead() && s.w.batch == buffer[..n]
    {
      n := 0;
      cut := AwaitQueue();
      if !cut { n := Take(buffer); }
    }

    /** The worker is between two messages of its buffer. */
    ghost predicate Between(buffer: array<Message>, i: nat, n: nat)
      reads this, buffer
    {
      && OnTrack() && i <= n <= buffer.Length && s.w.batch == buffer[i..n]
      && s.w.pc == if i < n then Head(policy) else Dequeuing
    }

    // ---- the worker goroutines ----

    /** MQTT after a pass without success: leave when cancelled or draining, and the link is down; the
        three are read at different times, draining only if not cancelled. */
    method MqttGivesUp() returns (leave: bool)
      requires OnTrack() && policy.Mqtt? && s.w.pc.LoadCtx?
      modifies this
      ensures OnTrack() && old(clock) < clock && Moved(old(s.w), old(s.h))
      ensures s.w.pc == if leave then Exited else LoadLink
      ensures var k := old(clock);
        leave == if Seen(k).ctxDone then !Seen(k + 1).connected else Seen(k + 1).draining && !Seen(k + 2).connected
    {
      leave := LoadCtxErr();
      if !leave { leave := LoadDraining(); }
      if leave {
        var up := LoadConnected();
        leave := !up;
      }
    }

    ghost predicate Went(o: Outcome, w: Worker, h: History)
      reads this
    {
      match o
      case Delivered => Advanced(w, h)
      case GaveUp => s.w.pc.Exited? && s.w.batch == w.batch && s.h.delivered == h.delivered
      case Cut => clock >= horizon && Retrying(w, h)
    }

    /** At the head of the retry loop with nothing delivered since. */
    ghost predicate Retrying(w: Worker, h: History)
      reads this
    {
      s.w.pc == Head(policy) && s.w.batch == w.batch && s.h.delivered == h.delivered
    }

    /** The first attempt made since, if `tries`, is this one. */
    ghost predicate Began(h: History, tries: bool, a: Attempt)
      reads this
    {
      tries ==> h.attempts + [a] <= s.h.attempts
    }

    /** One pass of a retry loop, as the reads and the answers of its steps decide it: an attempt is made at
        step `send` and answered at the next one, or not made; then the worker gives up or comes round again. */
    ghost predicate Passed(r: Pass, w: Worker, h: History, tries: bool, send: nat, forced: bool, leaves: bool)
      reads this
      requires w.batch != []
    {
      && s.h.attempts == (if tries then h.attempts + [Attempt(w.batch[0], Seen(send).torn, forced)] else h.attempts)
      && (r.Sent? <==> tries && sched(send + 1).reply.Ok?)
      && (!r.Sent? ==> (r.Left? <==> leaves))
      && (r.Sent? ==> clock == send + 2 && Advanced(w, h))
      && (r.Left? ==> s.w.pc.Exited? && s.w.batch == w.batch && s.h.delivered == h.delivered)
      && (r.Again? ==> Retrying(w, h))
    }

    /** MQTT: send if the link is up; without success, see whether to give up. */
    method MqttPass(msg: Message) returns (r: Pass)
      requires OnTrack() && policy.Mqtt? && AtHead() && msg == s.w.batch[0]
      modifies this
      ensures OnTrack() && old(clock) < clock
      ensures var k := old(clock); var up := Seen(k).connected; var c := if up then k + 3 else k + 1;
        Passed(r, old(s.w), old(s.h), up, k + 1, old(s.w.forced),
               if Seen(c).ctxDone then !Seen(c + 1).connected else Seen(c + 1).draining && !Seen(c + 2).connected)
    {
      var sent := MqttTry(msg);
      if sent { return Pass.Sent; }
      var leave := MqttGivesUp();
      return if leave then Left else Again;
    }

    /** MQTT's link check, and the send if it is up. */
    method MqttTry(msg: Message) returns (sent: bool)
      requires OnTrack() && policy.Mqtt? && AtHead() && msg == s.w.batch[0]
      modifies this
      ensures var k := old(clock); var up := Seen(k).connected;
        && OnTrack() && clock == (if up then k + 3 else k + 1) && sent == (up && sched(k + 2).reply.Ok?)
        && s.h.attempts == old(s.h.attempts) + if up then [Attempt(msg, Seen(k + 1).torn, old(s.w.forced))] else []
      ensures sent ==> Advanced(old(s.w), old(s.h))
      ensures !sent ==> s.w.batch == old(s.w.batch) && s.h.delivered == old(s.h.delivered) && s.w.pc == LoadCtx
    {
      sent := false;
      var up := LoadConnected();
      if up {
        var reply := SdkSend(msg, false);
        sent := reply.Ok?;
      }
    }

    /** MQTT: retries until the token succeeds.  A link that is up is used at once, and an accepted send ends it. */
    method MqttDeliver(msg: Message) returns (o: Outcome)
      requires OnTrack() && policy.Mqtt? && AtHead() && msg == s.w.batch[0]
      modifies this
      ensures OnTrack() && old(clock) <= clock && Went(o, old(s.w), old(s.h))
      ensures var k := old(clock);
        && Began(old(s.h), k < horizon && Seen(k).connected, Attempt(msg, Seen(k + 1).torn, old(s.w.forced)))
        && (k < horizon && Seen(k).connected && sched(k + 2).reply.Ok? ==> o.Delivered? && clock == k + 3)
    {
      if clock >= horizon { return Cut; }
      var r := MqttPass(msg);
      match r {
        case Sent => o := Delivered;
        case Left => o := GaveUp;
        case Again => o := MqttRetry(msg);
      }
    }

    /** The loop, from any of its passes on. */
    method MqttRetry(msg: Message) returns (o: Outcome)
      requires OnTrack() && policy.Mqtt? && AtHead() && msg == s.w.batch[0]
      modifies this
      ensures OnTrack() && old(clock) <= clock && Went(o, old(s.w), old(s.h)) && old(s.h.attempts) <= s.h.attempts
    {
      while clock < horizon
        invariant OnTrack() && old(clock) <= clock && Retrying(old(s.w), old(s.h)) && old(s.h.attempts) <= s.h.attempts
        decreases horizon - clock
      {
        var r := MqttPass(msg);
        if r.Sent? { return Delivered; }
        if r.Left? { return GaveUp; }
      }
      return Cut;
    }

    /** NATS with the link up: send; a draining client leaves at once if the send was refused. */
    method NatsSend(msg: Message) returns (sent: bool, leave: bool)
      requires OnTrack() && policy.Nats() && s.w.pc.Sending? && s.w.batch != [] && msg == s.w.batch[0]
      modifies this
      ensures OnTrack() && clock == old(clock) + if sent then 2 else 3
      ensures s.h.attempts == old(s.h.attempts) + [Attempt(msg, Seen(old(clock)).torn, old(s.w.forced))]
      ensures var reply := sched(old(clock) + 1).reply;
        sent == reply.Ok? && leave == (reply.Refused? && Seen(old(clock) + 2).draining)
      ensures sent ==> Advanced(old(s.w), old(s.h))
      ensures !sent ==> s.w.batch == old(s.w.batch) && s.h.delivered == old(s.h.delivered)
      ensures !sent ==> s.w.pc == if leave then Exited else Pc.LoadDraining
    {
      var r := SdkSend(msg, false);
      if r.Ok? { return true, false; }
      var v := LoadDraining();
      return false, v && r.Refused?;
    }

    /** NATS after a pass without success: leave when draining and the link is down, read in that order. */
    method NatsGivesUp() returns (leave: bool)
      requires OnTrack() && policy.Nats() && s.w.pc == Pc.LoadDraining
      modifies this
      ensures OnTrack() && old(clock) < clock && Moved(old(s.w), old(s.h))
      ensures s.w.pc == if leave then Exited else LoadCtxFirst
      ensures leave == (Seen(old(clock)).draining && !Seen(old(clock) + 1).connected)
    {
      leave := LoadDraining();
      if leave {
        var up := LoadConnected();
        leave := !up;
      }
    }

    /** NATS past its context check: send if the link is up, and leave at once if a draining client's send was
        refused; without success, see whether to give up. */
    method NatsTry(msg: Message) returns (r: Pass)
      requires OnTrack() && (policy.NatsCore? || policy.JetStream?) && s.w.pc.LoadLink? && s.w.batch != [] && msg == s.w.batch[0]
      modifies this
      ensures OnTrack() && old(clock) < clock
      ensures var k := old(clock); var up := Seen(k).connected; var c := if up then k + 4 else k + 1;
        Passed(r, old(s.w), old(s.h), up, k + 1, old(s.w.forced),
               (up && sched(k + 2).reply.Refused? && Seen(k + 3).draining) || (Seen(c).draining && !Seen(c + 1).connected))
    {
      var sent, refused := NatsAttempt(msg);
      if sent { return Pass.Sent; }
      if refused { return Left; }
      var leave := NatsGivesUp();
      return if leave then Left else Again;
    }

    /** The link check, and the send if it is up. */
    method NatsAttempt(msg: Message) returns (sent: bool, refused: bool)
      requires OnTrack() && (policy.NatsCore? || policy.JetStream?) && s.w.pc.LoadLink? && s.w.batch != [] && msg == s.w.batch[0]
      modifies this
      ensures var k := old(clock); var up := Seen(k).connected;
        && OnTrack() && sent == (up && sched(k + 2).reply.Ok?)
        && refused == (up && sched(k + 2).reply.Refused? && Seen(k + 3).draining)
        && clock == (if !up then k + 1 else if sent then k + 3 else k + 4)
        && s.h.attempts == old(s.h.attempts) + if up then [Attempt(msg, Seen(k + 1).torn, old(s.w.forced))] else []
      ensures sent ==> Advanced(old(s.w), old(s.h))
      ensures !sent ==> s.w.batch == old(s.w.batch) && s.h.delivered == old(s.h.delivered)
      ensures !sent ==> s.w.pc == if refused then Exited else Pc.LoadDraining
    {
      sent, refused := false, false;
      var up := LoadConnected();
      if up { sent, refused := NatsSend(msg); }
    }

    /** NATS core and JetStream: leave when cancelled, otherwise try. */
    method NatsPass(msg: Message) returns (r: Pass)
      requires OnTrack() && (policy.NatsCore? || policy.JetStream?) && AtHead() && msg == s.w.batch[0]
      modifies this
      ensures OnTrack() && old(clock) < clock
      ensures var k := old(clock);
        var done, up := Seen(k).ctxDone, Seen(k + 1).connected;
        var c := if up then k + 5 else k + 2;
        Passed(r, old(s.w), old(s.h), !done && up, k + 2, old(s.w.forced),
               done || (up && sched(k + 3).reply.Refused? && Seen(k + 4).draining) || (Seen(c).draining && !Seen(c + 1).connected))
    {
      var done := LoadCtxErr();
      if done { return Left; }
      r := NatsTry(msg);
    }

    /** NATS core and JetStream: with the context open, a link that is up is used at once, and an accepted send ends it. */
    method NatsDeliver(msg: Message) returns (o: Outcome)
      requires OnTrack() && (policy.NatsCore? || policy.JetStream?) && AtHead() && msg == s.w.batch[0]
      modifies this
      ensures OnTrack() && old(clock) <= clock && Went(o, old(s.w), old(s.h))
      ensures var k := old(clock); var tries := k < horizon && !Seen(k).ctxDone && Seen(k + 1).connected;
        && Began(old(s.h), tries, Attempt(msg, Seen(k + 2).torn, old(s.w.forced)))
        && (tries && sched(k + 3).reply.Ok? ==> o.Delivered? && clock == k + 4)
      ensures var k := old(clock); k < horizon && Seen(k).ctxDone ==> o.GaveUp? && s.h.attempts == old(s.h.attempts)
    {
      if clock >= horizon { return Cut; }
      var r := NatsPass(msg);
      match r {
        case Sent => o := Delivered;
        case Left => o := GaveUp;
        case Again => o := NatsRetry(msg);
      }
    }

    /** The loop, from any of its passes on. */
    method NatsRetry(msg: Message) returns (o: Outcome)
      requires OnTrack() && (policy.NatsCore? || policy.JetStream?) && AtHead() && msg == s.w.batch[0]
      modifies this
      ensures OnTrack() && old(clock) <= clock && Went(o, old(s.w), old(s.h)) && old(s.h.attempts) <= s.h.attempts
    {
      while clock < horizon
        invariant OnTrack() && old(clock) <= clock && Retrying(old(s.w), old(s.h)) && old(s.h.attempts) <= s.h.attempts
        decreases horizon - clock
      {
        var r := NatsPass(msg);
        if r.Sent? { return Delivered; }
        if r.Left? { return GaveUp; }
      }
      return Cut;
    }

    /** RabbitMQ: send; after a failure leave when draining. */
    method RabbitPass(msg: Message) returns (r: Pass)
      requires OnTrack() && policy.Rabbit? && AtHead() && msg == s.w.batch[0]
      modifies this
      ensures OnTrack() && old(clock) < clock
      ensures var k := old(clock); Passed(r, old(s.w), old(s.h), true, k, old(s.w.forced), Seen(k + 2).draining)
    {
      var reply := SdkSend(msg, false);
      if reply.Ok? { return Pass.Sent; }
      var v := LoadDraining();
      return if v then Left else Again;
    }

    /** RabbitMQ: retries forever unless draining; an accepted send ends it. */
    method RabbitDeliver(msg: Message) returns (o: Outcome)
      requires OnTrack() && policy.Rabbit? && AtHead() && msg == s.w.batch[0]
      modifies this
      ensures OnTrack() && old(clock) <= clock && Went(o, old(s.w), old(s.h))
      ensures var k := old(clock);
        && Began(old(s.h), k < horizon, Attempt(msg, Seen(k).torn, old(s.w.forced)))
        && (k < horizon && sched(k + 1).reply.Ok? ==> o.Delivered? && clock == k + 2)
    {
      if clock >= horizon { return Cut; }
      var r := RabbitPass(msg);
      match r {
        case Sent => o := Delivered;
        case Left => o := GaveUp;
        case Again => o := RabbitRetry(msg);
      }
    }

    /** The loop, from any of its passes on. */
    method RabbitRetry(msg: Message) returns (o: Outcome)
      requires OnTrack() && policy.Rabbit? && AtHead() && msg == s.w.batch[0]
      modifies this
      ensures OnTrack() && old(clock) <= clock && Went(o, old(s.w), old(s.h)) && old(s.h.attempts) <= s.h.attempts
    {
      while clock < horizon
        invariant OnTrack() && old(clock) <= clock && Retrying(old(s.w), old(s.h)) && old(s.h.attempts) <= s.h.attempts
        decreases horizon - clock
      {
        var r := RabbitPass(msg);
        if r.Sent? { return Delivered; }
        if r.Left? { return GaveUp; }
      }
      return Cut;
    }

    /** RocketMQ after a failed send: leave when cancelled, or else when draining. */
    method RocketGivesUp() returns (leave: bool)
      requires OnTrack() && policy.Rocket? && s.w.pc.LoadCtx?
      modifies this
      ensures OnTrack() && old(clock) < clock && Moved(old(s.w), old(s.h))
      ensures s.w.pc == if leave then Exited else LoadMode
      ensures leave == (Seen(old(clock)).ctxDone || Seen(old(clock) + 1).draining)
    {
      leave := LoadCtxErr();
      if !leave { leave := LoadDraining(); }
    }

    /** RocketMQ: draining switches to the synchronous drainPublish; after a failure leave when cancelled or draining. */
    method RocketPass(msg: Message) returns (r: Pass)
      requires OnTrack() && policy.Rocket? && AtHead() && msg == s.w.batch[0]
      modifies this
      ensures OnTrack() && old(clock) < clock
      ensures var k := old(clock);
        Passed(r, old(s.w), old(s.h), true, k + 1, Seen(k).draining, Seen(k + 3).ctxDone || Seen(k + 4).draining)
    {
      var drainMode := LoadDraining();
      var reply := SdkSend(msg, drainMode);
      if reply.Ok? { return Pass.Sent; }
      var leave := RocketGivesUp();
      return if leave then Left else Again;
    }

    /** RocketMQ: retries in the mode draining decides anew each time; an accepted send ends it. */
    method RocketDeliver(msg: Message) returns (o: Outcome)
      requires OnTrack() && policy.Rocket? && AtHead() && msg == s.w.batch[0]
      modifies this
      ensures OnTrack() && old(clock) <= clock && Went(o, old(s.w), old(s.h))
      ensures var k := old(clock);
        && Began(old(s.h), k < horizon, Attempt(msg, Seen(k + 1).torn, Seen(k).draining))
        && (k < horizon && sched(k + 2).reply.Ok? ==> o.Delivered? && clock == k + 3)
    {
      if clock >= horizon { return Cut; }
      var r := RocketPass(msg);
      match r {
        case Sent => o := Delivered;
        case Left => o := GaveUp;
        case Again => o := RocketRetry(msg);
      }
    }

    /** The loop, from any of its passes on. */
    method RocketRetry(msg: Message) returns (o: Outcome)
      requires OnTrack() && policy.Rocket? && AtHead() && msg == s.w.batch[0]
      modifies this
      ensures OnTrack() && old(clock) <= clock && Went(o, old(s.w), old(s.h)) && old(s.h.attempts) <= s.h.attempts
    {
      while clock < horizon
        invariant OnTrack() && old(clock) <= clock && Retrying(old(s.w), old(s.h)) && old(s.h.attempts) <= s.h.attempts
        decreases horizon - clock
      {
        var r := RocketPass(msg);
        if r.Sent? { return Delivered; }
        if r.Left? { return GaveUp; }
      }
      return Cut;
    }

    method Deliver(msg: Message) returns (o: Outcome)
      requires OnTrack() && AtHead() && msg == s.w.batch[0]
      modifies this
      ensures OnTrack() && old(clock) <= clock && Went(o, old(s.w), old(s.h))
    {
      match policy {
        case Mqtt => o := MqttDeliver(msg);
        case NatsCore => o := NatsDeliver(msg);
        case JetStream => o := NatsDeliver(msg);
        case Rabbit => o := RabbitDeliver(msg);
        case Rocket => o := RocketDeliver(msg);
      }
    }

    /** Every message of the buffer in turn, each until it is delivered. */
    method DeliverAll(buffer: array<Message>, n: nat) returns (o: Outcome)
      requires Between(buffer, 0, n) && n > 0
      modifies this
      ensures OnTrack() && old(clock) <= clock
      ensures o.Delivered? ==> s.w.pc.Dequeuing? && s.h.delivered == old(s.h.delivered) + buffer[..n]
      ensures o.GaveUp? ==> s.w.pc.Exited?
      ensures o.Cut? ==> clock >= horizon
    {
      for i := 0 to n
        invariant Between(buffer, i, n) && old(clock) <= clock
        invariant s.h.delivered == old(s.h.delivered) + buffer[..i]
      {
        o := Deliver(buffer[i]);
        if !o.Delivered? { return; }
        assert buffer[..i + 1] == buffer[..i] + [buffer[i]];
      }
      return Delivered;
    }

    /** The loop all five workers share: dequeue into the reused buffer, deliver each message in turn,
        leave when the queue is closed and empty or a delivery was given up. */
    method WorkerLoop()
      requires OnTrack() && s.w.pc.Dequeuing?
      modifies this
      ensures Valid() && s == at(clock) && old(clock) <= clock
      ensures clock >= horizon || (s.w.pc.Exited? && wg == 0)
    {
      var buffer := new Message[queueSize](_ => Message("", ""));
      while clock < horizon
        invariant OnTrack() && old(clock) <= clock && s.w.pc.Dequeuing?
        decreases horizon - clock
      {
        var n, cut := DequeueTo(buffer);
        if cut { break; }
        if n == 0 { wg := 0; break; }
        var o := DeliverAll(buffer, n);
        if o.GaveUp? { wg := 0; }
        if !o.Delivered? { break; }
      }
    }

    /** The worker takes the client exactly where its trace leads, for as long as it is observed or until
        it exits; in that state everything accepted is delivered, left in its batch or queued.  If at some
        step k it must exit, it has exited by the end of an observation that lasts Work steps longer; and
        what had been accepted at step k is delivered by the end of one that lasts DeliveryBound favourable
        steps longer. */
    method DrainLoop()
      requires OnTrack() && s.w.pc.Dequeuing?
      modifies this
      ensures Valid() && s == at(clock) && old(clock) <= clock
      ensures clock >= horizon || (s.w.pc.Exited? && wg == 0)
      ensures s.h.accepted == s.h.delivered + s.w.batch + queue
      ensures s.w.pc.Exited? && s.w.batch == [] ==> s.h.delivered == s.h.accepted && sealed
      ensures forall k: nat :: MustExit(policy, at, sched, k) && k + T.Work(policy, at(k)) <= horizon ==> s.w.pc.Exited?
      ensures forall k: nat :: Promised(k) ==> at(k).h.accepted <= s.h.delivered
    {
      WorkerLoop();
      forall k: nat | Promised(k) ensures at(k).h.accepted <= s.h.delivered { Kept(k); }
      TraceIsGood(at, policy, queueSize, sched, clock);
      assert s.h.delivered + (s.w.batch + queue) == s.h.delivered + s.w.batch + queue;
      if clock >= horizon {
        forall k: nat | MustExit(policy, at, sched, k) && k + T.Work(policy, at(k)) <= horizon ensures s.w.pc.Exited? {
          ExitsInTime(at, policy, queueSize, sched, k, clock);
        }
      }
    }

    /** The backlog of step k has a worker and time enough, in favourable turns. */
    ghost predicate Promised(k: nat) {
      && !at(k).w.pc.Exited? && k + DeliveryBound(at(k)) <= horizon
      && forall j: nat {:trigger sched(j)} :: k <= j < k + DeliveryBound(at(k)) ==> Favourable(policy, mid(j), sched(j).reply)
    }

    lemma Kept(k: nat)
      requires Valid() && s == at(clock) && (clock >= horizon || s.w.pc.Exited?) && Promised(k)
      ensures at(k).h.accepted <= s.h.delivered
    {
      var m := k + DeliveryBound(at(k));
      forall j: nat {:trigger sched(j)} | k <= j < m ensures Favourable(policy, Others(policy, at(j), sched(j).others), sched(j).reply) {
        assert Favourable(policy, mid(j), sched(j).reply);
      }
      if clock >= m {
        DeliversWithin(at, policy, queueSize, sched, k, clock);
      } else {
        DeliversWithin(at, policy, queueSize, sched, k, m);
        ExitedDeliversNothing(at, policy, queueSize, sched, clock, m - clock);
      }
    }
  }
}
