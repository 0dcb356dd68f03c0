/** The consumer group in the form the source gives it: ConsumeClaim, the dispatch worker and the
    shutdown part of SyncSubscribe as loops over fields updated in place, each run in the foreground
    while the other goroutines take the steps a schedule says.  The ghost state `s` is the machine's,
    Valid ties the fields to it, and OnTrack says that the group is exactly where KafkaTrace puts it
    after `clock` atomic steps of the foreground goroutine. */
module KafkaGroup {
  import M = Machine
  import opened KafkaConsumer
  import opened KafkaTrace
  import T = KafkaConsumerTheorems

  /** How the enqueueing of a message ended: done, given up with the loop at its end, or observation over. */
  datatype Outcome = Enqueued | GivenUp | Cut

  class ConsumerGroup {
    const bufferSize: nat
    // the goroutine in the foreground, what happened before it, what happens around it, and the number
    // of its steps after which observation ends
    const me: Role
    const before: seq<Event>
    const sched: nat -> Turn
    const horizon: nat
    // LockedRingBuffer, as its callers see it
    var queue: seq<Message>
    var sealed: bool
    // contexts
    var ctxDone: bool
    var ended: set<nat>
    // sarama's sessions with the loops that serve them, the worker, the shutdown sequence
    var claims: seq<Claim>
    var worker: Worker
    var sync: Sync
    // messages the handler was given
    var handled: seq<Message>
    // atomic steps the foreground goroutine has made
    var clock: nat

    ghost var s: State

    // the machine after the k-th own step, and at the k-th own step, after the others' part of that turn
    ghost const at: nat -> State
    ghost const mid: nat -> State

    ghost predicate Scheduled() {
      && Follows(at, me, bufferSize, Run(before), sched)
      && (forall k: nat {:trigger Others(me, at(k), sched(k).others)} :: mid(k) == Others(me, at(k), sched(k).others))
    }

    ghost predicate Valid()
      reads this
    {
      && bufferSize > 0 && Scheduled()
      && s.claims == claims && s.w == worker
      && s.sh == Shared(queue, sealed, ctxDone, ended, sync)
      && s.h.dispatched == handled
    }

    ghost predicate OnTrack()
      reads this
    {
      Valid() && s == at(clock)
    }

    ghost predicate InTurn()
      reads this
    {
      Valid() && s == mid(clock)
    }

    /** The group after the events `before`, when the goroutine `me` comes to the foreground. */
    constructor (bufferSize: nat, me: Role, before: seq<Event>, sched: nat -> Turn, horizon: nat)
      requires bufferSize > 0
      ensures OnTrack() && clock == 0 && s == Run(before)
      ensures this.bufferSize == bufferSize && this.me == me && this.before == before
      ensures this.sched == sched && this.horizon == horizon
    {
      var start := Run(before);
      this.bufferSize, this.me, this.before, this.sched, this.horizon := bufferSize, me, before, sched, horizon;
      queue, sealed, ctxDone, ended, sync := start.sh.queue, start.sh.sealed, start.sh.ctxDone, start.sh.ended, start.sh.sync;
      claims, worker, handled, clock, s := start.claims, start.w, start.h.dispatched, 0, start;
      at := (k: nat) => Trace(me, bufferSize, Run(before), sched, k);
      mid := (k: nat) => Others(me, Trace(me, bufferSize, Run(before), sched, k), sched(k).others);
    }

    // ---- atomic steps of ConsumeClaim ----

    method Receive(c: nat, offset: int)
      requires Valid() && At(s, c, Ranging)
      modifies this`claims, this`s
      ensures Valid() && s == Step(old(s), Event.Receive(c, offset))
      ensures claims == old(claims)[c := if Deliverable(old(claims)[c], offset)
                                         then old(claims)[c].(received := old(claims)[c].received + [offset], pc := CheckSession)
                                         else old(claims)[c]]
    {
      if Deliverable(claims[c], offset) {
        claims := claims[c := claims[c].(received := claims[c].received + [offset], pc := CheckSession)];
      }
      s := Step(s, Event.Receive(c, offset));
    }

    method ChannelClosed(c: nat)
      requires Valid() && At(s, c, Ranging)
      modifies this`claims, this`s
      ensures Valid() && s == Step(old(s), Event.ChannelClosed(c)) && claims == old(claims)[c := old(claims)[c].(pc := Done)]
    {
      claims := claims[c := claims[c].(pc := Done)];
      s := Step(s, Event.ChannelClosed(c));
    }

    method SessionErr(c: nat) returns (done: bool)
      requires Valid() && At(s, c, CheckSession)
      modifies this`claims, this`s
      ensures Valid() && s == Step(old(s), ClaimLoad(c)) && done == (old(claims)[c].session in ended)
      ensures claims == old(claims)[c := old(claims)[c].(pc := if done then Done else CheckParent)]
    {
      done := claims[c].session in ended;
      claims := claims[c := claims[c].(pc := if done then Done else CheckParent)];
      s := Step(s, ClaimLoad(c));
    }

    method ParentErr(c: nat) returns (done: bool)
      requires Valid() && At(s, c, CheckParent)
      modifies this`claims, this`s
      ensures Valid() && s == Step(old(s), ClaimLoad(c)) && done == ctxDone
      ensures claims == old(claims)[c := old(claims)[c].(pc := if done then Done else Trying)]
    {
      done := ctxDone;
      claims := claims[c := claims[c].(pc := if done then Done else Trying)];
      s := Step(s, ClaimLoad(c));
    }

    /** TryEnqueue: succeeds unless the queue is full or closed. */
    method TryEnqueue(c: nat, full: bool) returns (ok: bool)
      requires Valid() && At(s, c, Trying) && claims[c].received != []
      modifies this`claims, this`queue, this`s
      ensures Valid() && s == Step(old(s), Try(c, full)) && ok == (!full && !sealed)
      ensures var cl := old(claims)[c];
        && claims == old(claims)[c := if ok then cl.(sent := cl.sent + 1, pc := Marking) else cl.(pc := CheckSession)]
        && queue == if ok then old(queue) + [Message(c, cl.received[|cl.received| - 1])] else old(queue)
    {
      ok := !full && !sealed;
      var cl := claims[c];
      if ok {
        queue := queue + [Message(c, cl.received[|cl.received| - 1])];
        claims := claims[c := cl.(sent := cl.sent + 1, pc := Marking)];
      } else {
        claims := claims[c := cl.(pc := CheckSession)];
      }
      s := Step(s, Try(c, full));
    }

    /** session.MarkMessage: a mark only moves forward. */
    method MarkMessage(c: nat, offset: int)
      requires Valid() && At(s, c, Marking) && claims[c].received != [] && offset == claims[c].received[|claims[c].received| - 1]
      modifies this`claims, this`s
      ensures Valid() && s == Step(old(s), Mark(c))
      ensures claims == old(claims)[c := old(claims)[c].(mark := Max(old(claims)[c].mark, offset + 1), pc := Ranging)]
    {
      var cl := claims[c];
      claims := claims[c := cl.(mark := if cl.mark < offset + 1 then offset + 1 else cl.mark, pc := Ranging)];
      s := Step(s, Mark(c));
    }

    // ---- KafkaMessage.Ack ----

    /** Ack of the k-th message the handler was given: marks its offset plus one in its session. */
    method Ack(k: nat)
      requires Valid() && k < |handled| && handled[k].claim < |claims|
      modifies this`claims, this`s
      ensures Valid() && s == Step(old(s), Event.Ack(k))
      ensures var c := handled[k].claim;
        claims == old(claims)[c := old(claims)[c].(mark := Max(old(claims)[c].mark, handled[k].offset + 1))]
    {
      var m := handled[k];
      var cl := claims[m.claim];
      claims := claims[m.claim := cl.(mark := if cl.mark < m.offset + 1 then m.offset + 1 else cl.mark)];
      s := Step(s, Event.Ack(k));
    }

    // ---- atomic steps of the worker ----

    /** TryDequeueTo of n messages: they go from the head of the queue to the worker's batch; with none
        there the worker goes on to its context check, or leaves if the queue is closed. */
    method TakeBatch(n: nat) returns (valid: bool)
      requires Valid() && worker.pc.Polling? && n <= |queue| && (n == 0 ==> queue == [])
      modifies this`queue, this`worker, this`s
      ensures Valid() && s == Step(old(s), Poll(n)) && valid == !sealed
      ensures queue == old(queue)[n..]
      ensures worker == if n > 0 then Worker(Dispatching, old(queue)[..n])
                        else old(worker).(pc := if valid then CheckCtx else Gone)
    {
      valid := !sealed;
      if n == 0 {
        worker := worker.(pc := if valid then CheckCtx else Gone);
      } else {
        worker := Worker(Dispatching, queue[..n]);
        queue := queue[n..];
      }
      s := Step(s, Poll(n));
    }

    /** The handler runs on the next message of the buffer. */
    method Handle(msg: Message)
      requires Valid() && worker.pc.Dispatching? && worker.batch != [] && msg == worker.batch[0]
      modifies this`worker, this`handled, this`s
      ensures Valid() && s == Step(old(s), Dispatch) && handled == old(handled) + [msg]
      ensures worker == Worker(if |old(worker).batch| == 1 then Polling else Dispatching, old(worker).batch[1..])
    {
      handled := handled + [msg];
      worker := Worker(if |worker.batch| == 1 then Polling else Dispatching, worker.batch[1..]);
      s := Step(s, Dispatch);
    }

    method WorkerErr() returns (done: bool)
      requires Valid() && worker.pc.CheckCtx?
      modifies this`worker, this`s
      ensures Valid() && s == Step(old(s), WorkerLoad) && done == ctxDone
      ensures worker == old(worker).(pc := if done then Gone else Polling)
    {
      done := ctxDone;
      worker := worker.(pc := if done then Gone else Polling);
      s := Step(s, WorkerLoad);
    }

    // ---- sessions, cancellation and the shutdown sequence ----

    method Cancel()
      requires Valid()
      modifies this`ctxDone, this`s
      ensures Valid() && s == Step(old(s), Event.Cancel) && ctxDone
    {
      ctxDone := true;
      s := Step(s, Event.Cancel);
    }

    /** A rebalance opens a claim, or ends a session. */
    method Rebalance(e: Event)
      requires Valid() && (e.OpenClaim? || e.EndSession?)
      modifies this`claims, this`ended, this`s
      ensures Valid() && s == Step(old(s), e)
      ensures ended == if e.EndSession? then old(ended) + {e.session} else old(ended)
      ensures claims == if e.OpenClaim? && (sync.Serving? || sync.Paused?)
                        then old(claims) + [Claim(e.session, e.start, [], 0, e.start, Ranging)] else old(claims)
    {
      if e.EndSession? {
        ended := ended + {e.session};
      } else if sync.Serving? || sync.Paused? {
        claims := claims + [Claim(e.session, e.start, [], 0, e.start, Ranging)];
      }
      s := Step(s, e);
    }

    /** SyncSubscribe once its context is done: its next step, if it is not blocked. */
    method SubscribeNext()
      requires Valid()
      modifies this`sync, this`sealed, this`s
      ensures Valid() && s == Step(old(s), SyncNext)
      ensures old(sync).Serving? ==> sync == if ctxDone then Paused else Serving
      ensures old(sync).Paused? ==> sync == if AllDone(claims) then GroupClosed else Paused
      ensures old(sync).GroupClosed? ==> sync == Sealed && sealed
      ensures old(sync).Sealed? ==> sync == if worker.pc.Gone? then Finished else Sealed
    {
      match sync {
        case Serving => if ctxDone { sync := Paused; }
        case Paused => if AllDone(claims) { sync := GroupClosed; }
        case GroupClosed => sealed, sync := true, Sealed;
        case Sealed => if worker.pc.Gone? { sync := Finished; }
        case Finished =>
      }
      s := Step(s, SyncNext);
    }

    // ---- the other goroutines ----

    /** One step of some goroutine; a step its goroutine is not at changes nothing. */
    method Perform(e: Event)
      requires Valid()
      modifies this
      ensures Valid() && s == Step(old(s), e) && clock == old(clock)
    {
      match e {
        case OpenClaim(_, _) => Rebalance(e);
        case EndSession(_) => Rebalance(e);
        case Cancel => Cancel();
        case SyncNext => SubscribeNext();
        case Ack(k) => if k < |handled| && handled[k].claim < |claims| { Ack(k); }
        case Poll(_) => PerformWorker(e);
        case Dispatch => PerformWorker(e);
        case WorkerLoad => PerformWorker(e);
        case _ => PerformClaim(e);
      }
    }

    method PerformWorker(e: Event)
      requires Valid() && (e.Poll? || e.Dispatch? || e.WorkerLoad?)
      modifies this
      ensures Valid() && s == Step(old(s), e) && clock == old(clock)
    {
      if e.Dispatch? {
        if worker.pc.Dispatching? && worker.batch != [] { Handle(worker.batch[0]); }
      } else if e.WorkerLoad? {
        if worker.pc.CheckCtx? { var _ := WorkerErr(); }
      } else if worker.pc.Polling? {
        if queue == [] {
          var _ := TakeBatch(0);
        } else if 1 <= e.n <= |queue| {
          var _ := TakeBatch(e.n);
        }
      }
    }

    method PerformClaim(e: Event)
      requires Valid() && (e.Receive? || e.ChannelClosed? || e.ClaimLoad? || e.Try? || e.Mark?)
      modifies this
      ensures Valid() && s == Step(old(s), e) && clock == old(clock)
    {
      if e.c < |claims| {
        match claims[e.c].pc {
          case Ranging => if e.Receive? { Receive(e.c, e.offset); } else if e.ChannelClosed? { ChannelClosed(e.c); }
          case CheckSession => if e.ClaimLoad? { var _ := SessionErr(e.c); }
          case CheckParent => if e.ClaimLoad? { var _ := ParentErr(e.c); }
          case Trying => if e.Try? && claims[e.c].received != [] { var _ := TryEnqueue(e.c, e.full); }
          case Marking =>
            if e.Mark? && claims[e.c].received != [] { MarkMessage(e.c, claims[e.c].received[|claims[e.c].received| - 1]); }
          case Done =>
        }
      }
    }

    /** Lets the other goroutines take their part of the next turn. */
    method Yield()
      requires OnTrack()
      modifies this
      ensures InTurn() && clock == old(clock) && Kept(me, old(s), s)
    {
      var others := sched(clock).others;
      ghost var start := s;
      for i := 0 to |others|
        invariant Valid() && clock == old(clock) && s == Others(me, start, others[..i]) && Kept(me, start, s)
      {
        M.TheirsSnoc(Step, IsMine(me), start, others, i);
        if !Mine(me, others[i]) {
          OtherKeeps(me, s, others[i]);
          Perform(others[i]);
        }
      }
      assert others[..|others|] == others && mid(clock) == Others(me, at(clock), sched(clock).others);
    }

    /** The foreground goroutine has made the step that completes the turn. */
    method Tick()
      requires Valid() && s == Step(mid(clock), OwnEvent(me, bufferSize, mid(clock), sched(clock)))
      modifies this`clock
      ensures OnTrack() && clock == old(clock) + 1
    {
      NextTurn(at, me, bufferSize, Run(before), sched, clock);
      assert mid(clock) == Others(me, at(clock), sched(clock).others);
      clock := clock + 1;
    }

    // ---- the claim loop ----

    /** session.Context().Err() != nil || parentCtx.Context().Err() != nil, each read on its own. */
    method ContextErr(c: nat) returns (done: bool)
      requires OnTrack() && me == ClaimLoop(c) && At(s, c, CheckSession)
      modifies this
      ensures OnTrack() && old(clock) < clock && c < |claims| && claims[c].received == old(claims[c].received)
      ensures claims[c].pc == if done then Done else Trying
      ensures done == (old(claims[c].session) in mid(old(clock)).sh.ended || mid(old(clock) + 1).sh.ctxDone)
    {
      done := ReadSession(c);
      if !done { done := ReadParent(c); }
    }

    method ReadSession(c: nat) returns (done: bool)
      requires OnTrack() && me == ClaimLoop(c) && At(s, c, CheckSession)
      modifies this
      ensures OnTrack() && clock == old(clock) + 1 && c < |claims| && claims[c].received == old(claims[c].received)
      ensures claims[c].session == old(claims[c].session) && claims[c].pc == (if done then Done else CheckParent)
      ensures done == (claims[c].session in mid(old(clock)).sh.ended)
    {
      Yield();
      done := SessionErr(c);
      Tick();
    }

    method ReadParent(c: nat) returns (done: bool)
      requires OnTrack() && me == ClaimLoop(c) && At(s, c, CheckParent)
      modifies this
      ensures OnTrack() && clock == old(clock) + 1 && c < |claims| && claims[c].received == old(claims[c].received)
      ensures claims[c].pc == (if done then Done else Trying) && done == mid(old(clock)).sh.ctxDone
    {
      Yield();
      done := ParentErr(c);
      Tick();
    }

    /** One try, with the ring full or not as the schedule has it. */
    method TryOnce(c: nat) returns (ok: bool)
      requires OnTrack() && me == ClaimLoop(c) && At(s, c, Trying) && claims[c].received != []
      modifies this
      ensures OnTrack() && clock == old(clock) + 1 && c < |claims| && claims[c].received == old(claims[c].received)
      ensures ok == (!sched(old(clock)).full && !mid(old(clock)).sh.sealed)
      ensures claims[c].pc == (if ok then Marking else CheckSession)
      ensures claims[c].sent == old(claims[c].sent) + if ok then 1 else 0
    {
      Yield();
      ok := TryEnqueue(c, sched(clock).full);
      Tick();
    }

    /** Spins on TryEnqueue, checking both contexts before each try. */
    method SpinEnqueue(c: nat) returns (o: Outcome)
      requires OnTrack() && me == ClaimLoop(c) && At(s, c, CheckSession) && claims[c].received != []
      modifies this
      ensures OnTrack() && old(clock) <= clock && c < |claims| && claims[c].received == old(claims[c].received)
      ensures o.Enqueued? ==> claims[c].pc == Marking
      ensures o.GivenUp? ==> claims[c].pc == Done
      ensures o.Cut? ==> clock >= horizon
    {
      while clock < horizon
        invariant OnTrack() && old(clock) <= clock && At(s, c, CheckSession)
        invariant claims[c].received == old(claims[c].received)
        decreases horizon - clock
      {
        var done := ContextErr(c);
        if done { return GivenUp; }
        var ok := TryOnce(c);
        if ok { return Enqueued; }
      }
      return Cut;
    }

    method MarkIt(c: nat, offset: int)
      requires OnTrack() && me == ClaimLoop(c) && At(s, c, Marking)
      requires claims[c].received != [] && offset == claims[c].received[|claims[c].received| - 1]
      modifies this
      ensures OnTrack() && clock == old(clock) + 1 && At(s, c, Ranging) && claims[c].mark >= offset + 1
    {
      Yield();
      MarkMessage(c, offset);
      Tick();
    }

    /** One message from the claim's channel, if it has one: into the queue, and only then marked. */
    method EnqueueAndMark(c: nat) returns (o: Outcome)
      requires OnTrack() && me == ClaimLoop(c) && At(s, c, CheckSession) && claims[c].received != []
      modifies this
      ensures OnTrack() && old(clock) <= clock && c < |claims|
      ensures o.Enqueued? ==> claims[c].pc == Ranging
      ensures o.GivenUp? ==> claims[c].pc == Done
      ensures o.Cut? ==> clock >= horizon
    {
      var offset := claims[c].received[|claims[c].received| - 1];
      o := SpinEnqueue(c);
      if o.Enqueued? { MarkIt(c, offset); }
    }

    /** range claim.Messages(): a message, nothing yet, or the channel closed. */
    method Range(c: nat) returns (closed: bool)
      requires OnTrack() && me == ClaimLoop(c) && At(s, c, Ranging)
      modifies this
      ensures OnTrack() && clock == old(clock) + 1 && c < |claims| && closed == sched(old(clock)).closed
      ensures claims[c].pc == (if closed then Done else if claims[c].received == old(claims[c].received) then Ranging else CheckSession)
      ensures closed || claims[c].received == old(claims[c].received)
              || claims[c].received == old(claims[c].received) + [sched(old(clock)).offset]
    {
      Yield();
      closed := sched(clock).closed;
      if closed { ChannelClosed(c); } else { Receive(c, sched(clock).offset); }
      Tick();
    }

    method RangeLoop(c: nat)
      requires OnTrack() && me == ClaimLoop(c) && At(s, c, Ranging)
      modifies this
      ensures OnTrack() && old(clock) <= clock && c < |claims|
      ensures clock >= horizon || claims[c].pc == Done
    {
      while clock < horizon
        invariant OnTrack() && old(clock) <= clock && At(s, c, Ranging)
        decreases horizon - clock
      {
        var closed := Range(c);
        if closed { return; }
        if claims[c].pc == CheckSession {
          var o := EnqueueAndMark(c);
          if !o.Enqueued? { return; }
        }
      }
    }

    /** ConsumeClaim takes the group exactly where its trace leads, for as long as it is observed or until
        it returns.  What it enqueued is an in-order prefix of what it took; when it is done the mark
        stands just past that prefix; and six steps after a cancellation it is done, if its channel does
        not keep it waiting. */
    method ConsumeClaim(c: nat)
      requires OnTrack() && me == ClaimLoop(c) && At(s, c, Ranging)
      modifies this
      ensures OnTrack() && old(clock) <= clock && c < |claims|
      ensures clock >= horizon || claims[c].pc == Done
      ensures claims[c].sent <= |claims[c].received| && Of(s.h.enqueued, c) == claims[c].received[..claims[c].sent]
      ensures claims[c].pc == Done ==> claims[c].mark == MarkAfter(claims[c], claims[c].sent)
      ensures forall k: nat :: Cancelled(c, at(k)) && FedFor(c, at, sched, k, 6) && k + 6 <= horizon ==> claims[c].pc == Done
    {
      RangeLoop(c);
      Reached();
      assert ClaimInv(claims[c]);
      if clock >= horizon {
        forall k: nat | Cancelled(c, at(k)) && FedFor(c, at, sched, k, 6) && k + 6 <= horizon ensures claims[c].pc == Done {
          ClaimEndsBy(c, at, bufferSize, before, sched, k, clock);
        }
      }
    }

    lemma Reached()
      requires OnTrack()
      ensures Inv(s)
    {
      TraceInv(at, me, bufferSize, before, sched, clock);
    }

    // ---- the dispatch worker ----

    /** TryDequeueTo: fills the buffer from the head of the queue; how many, and whether the queue is still open. */
    method TryDequeueTo(buffer: array<Message>) returns (n: nat, valid: bool)
      requires OnTrack() && me == WorkerLoop && worker.pc.Polling? && worker.batch == [] && buffer.Length == bufferSize
      modifies this, buffer
      ensures OnTrack() && clock == old(clock) + 1 && handled == old(handled)
      ensures var q := mid(old(clock)).sh.queue;
        n == M.Min(|q|, bufferSize) && buffer[..n] == q[..n] && queue == q[n..]
      ensures valid == !mid(old(clock)).sh.sealed
      ensures worker == if n > 0 then Worker(Dispatching, buffer[..n]) else Worker(if valid then CheckCtx else Gone, [])
    {
      Yield();
      n := M.Min(|queue|, buffer.Length);
      forall i | 0 <= i < n { buffer[i] := queue[i]; }
      assert buffer[..n] == queue[..n];
      valid := TakeBatch(n);
      Tick();
    }

    /** Every message of the buffer reaches the handler, in order. */
    method HandleAll(buffer: array<Message>, n: nat)
      requires OnTrack() && me == WorkerLoop && 0 < n <= buffer.Length && worker == Worker(Dispatching, buffer[..n])
      modifies this
      ensures OnTrack() && clock == old(clock) + n
      ensures worker == Worker(Polling, []) && handled == old(handled) + buffer[..n]
    {
      for i := 0 to n
        invariant OnTrack() && clock == old(clock) + i && handled == old(handled) + buffer[..i]
        invariant worker == Worker(if i < n then Dispatching else Polling, buffer[i..n])
      {
        Yield();
        Handle(buffer[i]);
        Tick();
        assert buffer[..i + 1] == buffer[..i] + [buffer[i]];
      }
    }

    /** The context check after an empty poll. */
    method CheckContext() returns (done: bool)
      requires OnTrack() && me == WorkerLoop && worker == Worker(CheckCtx, [])
      modifies this
      ensures OnTrack() && clock == old(clock) + 1 && handled == old(handled)
      ensures done == mid(old(clock)).sh.ctxDone && worker == Worker(if done then Gone else Polling, [])
    {
      Yield();
      done := WorkerErr();
      Tick();
    }

    method PollLoop()
      requires OnTrack() && me == WorkerLoop && worker == Worker(Polling, [])
      modifies this
      ensures OnTrack() && old(clock) <= clock
      ensures clock >= horizon || worker.pc.Gone?
    {
      var buffer := new Message[bufferSize](_ => Message(0, 0));
      while clock < horizon
        invariant OnTrack() && old(clock) <= clock && worker == Worker(Polling, [])
        decreases horizon - clock
      {
        var n, valid := TryDequeueTo(buffer);
        if n > 0 {
          HandleAll(buffer, n);
          continue;
        }
        if !valid { break; }
        var done := CheckContext();
        if done { break; }
      }
    }

    /** The dispatch worker takes the group exactly where its trace leads, for as long as it is observed or
        until it is gone.  It is gone only after cancellation, having handled exactly what was enqueued up
        to its last empty poll.  What had been enqueued at any step is handled DispatchBound steps later, unless
        the worker was then past that poll; and once sarama's group is closed it is gone after PollsLeft more. */
    method DispatchWorker()
      requires OnTrack() && me == WorkerLoop && worker == Worker(Polling, [])
      modifies this
      ensures OnTrack() && old(clock) <= clock
      ensures clock >= horizon || worker.pc.Gone?
      ensures worker.pc.Gone? ==>
        ctxDone && s.h.emptyAt <= |s.h.enqueued| &&
        handled == s.h.enqueued[..s.h.emptyAt] && queue == s.h.enqueued[s.h.emptyAt..]
      ensures forall k: nat :: GroupOver(at(k)) && k + PollsLeft(at(k)) <= horizon ==> worker.pc.Gone?
      ensures forall k: nat :: Staying(mid(k)) && k + 2 * |at(k).sh.queue| + |at(k).w.batch| + 1 <= horizon ==>
        at(k).h.enqueued <= handled
    {
      PollLoop();
      forall k: nat | Staying(mid(k)) && k + 2 * |at(k).sh.queue| + |at(k).w.batch| + 1 <= horizon
        ensures at(k).h.enqueued <= handled
      {
        Handled(k);
      }
      assert at(clock) == Trace(me, bufferSize, Run(before), sched, clock);
      ghost var log := TraceIsRun(me, bufferSize, before, sched, clock);
      if worker.pc.Gone? { T.StrandedIsWhatFollowsTheLastEmptyPoll(log); }
      if clock >= horizon {
        forall k: nat | GroupOver(at(k)) && k + PollsLeft(at(k)) <= horizon ensures worker.pc.Gone? {
          WorkerEndsWithin(at, bufferSize, before, sched, k, clock - k);
        }
      }
    }

    lemma Handled(k: nat)
      requires OnTrack() && me == WorkerLoop && (clock >= horizon || worker.pc.Gone?)
      requires Staying(mid(k)) && k + DispatchBound(at(k)) <= horizon
      ensures at(k).h.enqueued <= handled
    {
      var m := k + DispatchBound(at(k));
      assert mid(k) == Others(me, at(k), sched(k).others);
      if clock >= m {
        DispatchesWithin(at, bufferSize, before, sched, k, clock);
      } else {
        DispatchesWithin(at, bufferSize, before, sched, k, m);
        GoneDispatchesNothing(at, bufferSize, Run(before), sched, clock, m - clock);
      }
    }

    // ---- SyncSubscribe ----

    method ShutdownLoop()
      requires OnTrack() && me == Subscriber
      modifies this
      ensures OnTrack() && old(clock) <= clock
      ensures clock >= horizon || sync.Finished?
    {
      while clock < horizon && !sync.Finished?
        invariant OnTrack() && old(clock) <= clock
        decreases horizon - clock
      {
        Yield();
        SubscribeNext();
        Tick();
      }
    }

    /** SyncSubscribe from its context on: pause and cancel the session, wait for the group to close, close
        the queue, wait for the worker, each as its trace says.  When it is through, the queue is closed and
        no claim loop and no worker is left; with the group closed and the worker gone that takes two steps. */
    method AwaitShutdown()
      requires OnTrack() && me == Subscriber && sync.Serving?
      modifies this
      ensures OnTrack() && old(clock) <= clock
      ensures clock >= horizon || sync.Finished?
      ensures sync.Finished? ==> ctxDone && sealed && AllDone(claims) && worker.pc.Gone?
      ensures forall k: nat :: Ending(at(k)) && k + 2 <= horizon ==> sync.Finished?
    {
      ShutdownLoop();
      Reached();
      if clock >= horizon {
        forall k: nat | Ending(at(k)) && k + 2 <= horizon ensures sync.Finished? {
          SubscriberEndsBy(at, bufferSize, Run(before), sched, k, clock);
        }
      }
    }
  }
}
