/** The Kafka producer in the form the source gives it: fields updated in place, and the sender and
    status goroutines as loops run while the schedule lets the others take their steps.  Valid ties the
    fields to the machine's state, OnTrack that state to the trace of the foreground goroutine. */
module KafkaAsyncProducer {
  import M = Machine
  import opened KafkaProducer
  import opened ProducerTrace

  class AsyncProducer {
    const queueSize: nat
    // the goroutine in the foreground, the schedule, and the number of its steps after which observation ends
    const me: Role
    const sched: nat -> Turn
    const horizon: nat
    var queue: seq<Message>
    var sealed: bool
    var ctxDone: bool
    var subDone: bool
    var passed: bool
    var closed: bool
    var threads: Threads
    // what went into Producer.Input()
    var input: seq<Message>
    // atomic steps the foreground goroutine has made
    var clock: nat

    ghost var s: State

    // the machine after the k-th own step, and at the k-th own step, after the others' part of that turn
    ghost const at: nat -> State
    ghost const mid: nat -> State

    ghost predicate Scheduled() {
      && Follows(at, me, queueSize, sched)
      && (forall k: nat {:trigger Others(me, at(k), sched(k))} :: mid(k) == Others(me, at(k), sched(k)))
    }

    ghost predicate Valid()
      reads this
    {
      && queueSize > 0 && Scheduled()
      && s.q == Queue(queue, sealed) && s.f == Flags(ctxDone, subDone, passed, closed)
      && s.t == threads && s.h.input == input
    }

    ghost predicate OnTrack()
      reads this
    {
      Valid() && s == at(clock)
    }

    ghost predicate InTurn()
      reads this
    {
      Valid() && s == mid(clock)
    }

    /** The producer just after Start launched its goroutines. */
    constructor (queueSize: nat, me: Role, sched: nat -> Turn, horizon: nat)
      requires queueSize > 0
      ensures OnTrack() && clock == 0 && s == Init
      ensures this.queueSize == queueSize && this.me == me && this.sched == sched && this.horizon == horizon
    {
      this.queueSize, this.me, this.sched, this.horizon := queueSize, me, sched, horizon;
      queue, sealed, input, clock := [], false, [], 0;
      ctxDone, subDone, passed, closed := false, false, false, false;
      threads, s := Threads(Dequeuing, [], true, AwaitContext), Init;
      at := (k: nat) => Trace(me, queueSize, sched, k);
      mid := (k: nat) => Others(me, Trace(me, queueSize, sched, k), sched(k));
    }

    // ---- Publish and Close ----

    method Publish(msg: Message) returns (ok: bool)
      requires Valid()
      modifies this`queue, this`s
      ensures Valid() && s == Step(old(s), Event.Publish(msg))
      ensures ok == !sealed && queue == if ok then old(queue) + [msg] else old(queue)
    {
      ok := !sealed;
      if ok { queue := queue + [msg]; }
      s := Step(s, Event.Publish(msg));
    }

    /** PublishArray answers true as soon as one message fits; the rest may be left out. */
    method PublishArray(msgs: seq<Message>, room: nat) returns (ok: bool)
      requires Valid()
      modifies this`queue, this`s
      ensures Valid() && s == Step(old(s), Event.PublishArray(msgs, room))
      ensures ok <==> !sealed && msgs != [] && room > 0
      ensures queue == if sealed then old(queue) else old(queue) + msgs[..M.Min(|msgs|, room)]
      ensures queue == old(queue) + msgs <==> msgs == [] || (!sealed && |msgs| <= room)
    {
      var n := if sealed then 0 else M.Min(|msgs|, room);
      queue := queue + msgs[..n];
      ok := n > 0;
      assert sealed ==> queue == old(queue);
      assert |msgs| <= room ==> msgs[..|msgs|] == msgs;
      assert |queue| == |old(queue)| + n && |old(queue) + msgs| == |old(queue)| + |msgs|;
      s := Step(s, Event.PublishArray(msgs, room));
    }

    /** Close, step by step: cancel, seal, wait for Start, close the sarama producer. */
    method CloseStep(e: Event)
      requires Valid() && (e.Cancel? || e.CloseQueue? || e.CloseWait? || e.CloseProducer?)
      modifies this`ctxDone, this`sealed, this`passed, this`closed, this`s
      ensures Valid() && s == Step(old(s), e)
      ensures ctxDone == (old(ctxDone) || e.Cancel?)
      ensures sealed == (old(sealed) || (e.CloseQueue? && ctxDone))
      ensures passed == (old(passed) || (e.CloseWait? && sealed && threads.main.Returned?))
      ensures closed == (old(closed) || (e.CloseProducer? && passed))
    {
      if e.Cancel? { ctxDone := true; }
      else if e.CloseQueue? { if ctxDone { sealed := true; } }
      else if e.CloseWait? { if sealed && threads.main.Returned? { passed := true; } }
      else if passed { closed := true; }
      s := Step(s, e);
    }

    // ---- steps of Start's goroutines ----

    /** DequeueTo of n messages, once it does not block. */
    method Take(n: nat)
      requires Valid() && threads.sender.Dequeuing? && n <= |queue| && (n == 0 ==> queue == [] && sealed)
      modifies this`queue, this`threads, this`s
      ensures Valid() && s == Step(old(s), Dequeue(n)) && queue == old(queue)[n..]
      ensures threads == if n == 0 then old(threads).(sender := Cancelling)
                         else old(threads).(sender := Feeding, batch := old(queue)[..n])
    {
      if n == 0 {
        threads := threads.(sender := Cancelling);
      } else {
        threads := threads.(sender := Feeding, batch := queue[..n]);
        queue := queue[n..];
      }
      s := Step(s, Dequeue(n));
    }

    /** that.Producer.Input() <- rawMsg */
    method FeedInput(msg: Message)
      requires Valid() && threads.sender.Feeding? && threads.batch != [] && msg == threads.batch[0]
      modifies this`threads, this`input, this`s
      ensures Valid() && s == Step(old(s), Feed) && input == old(input) + [msg]
      ensures threads == old(threads).(batch := old(threads).batch[1..],
                                       sender := if |old(threads).batch| == 1 then Dequeuing else Feeding)
    {
      input := input + [msg];
      threads := threads.(batch := threads.batch[1..], sender := if |threads.batch| == 1 then Dequeuing else Feeding);
      s := Step(s, Feed);
    }

    method SubCancel()
      requires Valid() && threads.sender.Cancelling?
      modifies this`subDone, this`threads, this`s
      ensures Valid() && s == Step(old(s), CancelSub) && subDone && threads == old(threads).(sender := Gone)
    {
      subDone, threads := true, threads.(sender := Gone);
      s := Step(s, CancelSub);
    }

    /** One select of the status reader; it leaves when its context is done or the channels are closed. */
    method Select() returns (leave: bool)
      requires Valid()
      modifies this`threads, this`s
      ensures Valid() && s == Step(old(s), ReadStatus) && leave == (subDone || closed)
      ensures threads == if leave then old(threads).(reader := false) else old(threads)
    {
      leave := subDone || closed;
      if leave { threads := threads.(reader := false); }
      s := Step(s, ReadStatus);
    }

    /** Start's own part: past its context, then past both goroutines, then it returns. */
    method MainStep()
      requires Valid()
      modifies this`threads, this`s
      ensures Valid() && s == Step(old(s), MainNext)
      ensures threads.main.Returned? ==> old(threads).main.Returned? || (threads.sender.Gone? && !threads.reader)
    {
      if threads.main.AwaitContext? && ctxDone {
        threads := threads.(main := AwaitWorkers);
      } else if threads.main.AwaitWorkers? && threads.sender.Gone? && !threads.reader {
        threads := threads.(main := Returned);
      }
      s := Step(s, MainNext);
    }

    method PerformStart(e: Event)
      requires Valid() && (e.ReadStatus? || e.Dequeue? || e.Feed? || e.CancelSub? || e.MainNext?)
      modifies this
      ensures Valid() && s == Step(old(s), e) && clock == old(clock)
    {
      match e {
        case ReadStatus => var _ := Select();
        case MainNext => MainStep();
        case Dequeue(n) =>
          if threads.sender.Dequeuing? {
            if queue == [] { if sealed { Take(0); } } else if 1 <= n <= |queue| { Take(n); }
          }
        case Feed => if threads.sender.Feeding? && threads.batch != [] { FeedInput(threads.batch[0]); }
        case CancelSub => if threads.sender.Cancelling? { SubCancel(); }
        case _ =>
      }
    }

    /** One step of a goroutine; nothing if it is not at it. */
    method Perform(e: Event)
      requires Valid()
      modifies this
      ensures Valid() && s == Step(old(s), e) && clock == old(clock)
    {
      match e {
        case Publish(m) => var _ := Publish(m);
        case PublishArray(ms, room) => var _ := PublishArray(ms, room);
        case Cancel => CloseStep(e);
        case CloseQueue => CloseStep(e);
        case CloseWait => CloseStep(e);
        case CloseProducer => CloseStep(e);
        case _ => PerformStart(e);
      }
    }

    /** Lets the other goroutines take their part of the next turn. */
    method Yield()
      requires OnTrack()
      modifies this
      ensures InTurn() && clock == old(clock) && Kept(me, old(s), s)
    {
      var others := sched(clock);
      ghost var start := s;
      for i := 0 to |others|
        invariant Valid() && clock == old(clock) && s == Others(me, start, others[..i]) && Kept(me, start, s)
      {
        M.TheirsSnoc(Step, IsMine(me), start, others, i);
        if !Mine(me, others[i]) {
          OtherKeeps(me, s, others[i]);
          Perform(others[i]);
        }
      }
      assert others[..|others|] == others && mid(clock) == Others(me, at(clock), sched(clock));
    }

    /** The foreground goroutine has made the step that completes the turn. */
    method Tick()
      requires Valid() && s == Step(mid(clock), OwnEvent(me, queueSize, mid(clock)))
      modifies this`clock
      ensures OnTrack() && clock == old(clock) + 1
    {
      NextTurn(at, me, queueSize, sched, clock);
      assert mid(clock) == Others(me, at(clock), sched(clock));
      clock := clock + 1;
    }

    // ---- the sender ----

    /** Blocking DequeueTo: 0 only when the queue is closed and empty, else the head of the queue; it goes on
        waiting only through looks that find the queue empty and open.  `cut`: observation ended while it
        was still blocked. */
    method DequeueTo(buffer: array<Message>) returns (n: nat, cut: bool)
      requires OnTrack() && me == Sender && threads.sender.Dequeuing? && threads.batch == [] && buffer.Length == queueSize
      modifies this, buffer
      ensures OnTrack() && old(clock) < clock && input == old(input)
      ensures cut ==> clock >= horizon && threads.sender.Dequeuing?
      ensures forall j: nat :: old(clock) <= j < (if cut then clock else clock - 1) ==> mid(j).q == Queue([], false)
      ensures !cut ==> n == M.Min(|mid(clock - 1).q.items|, queueSize) <= buffer.Length && buffer[..n] == mid(clock - 1).q.items[..n]
      ensures !cut && n == 0 ==> threads.sender.Cancelling? && sealed && queue == []
      ensures !cut && n > 0 ==> threads.sender.Feeding? && threads.batch == buffer[..n]
    {
      n := 0;
      cut := AwaitQueue();
      if !cut { n := TakeInto(buffer); }
    }

    /** The waiting part of it. */
    method AwaitQueue() returns (cut: bool)
      requires OnTrack() && me == Sender && threads.sender.Dequeuing?
      modifies this
      ensures old(clock) <= clock && Kept(me, old(s), s) && (cut ==> OnTrack() && clock >= horizon && old(clock) < clock)
      ensures !cut ==> InTurn() && (queue != [] || sealed)
      ensures forall j: nat :: old(clock) <= j < clock ==> mid(j).q == Queue([], false)
    {
      Yield();
      while queue == [] && !sealed
        invariant InTurn() && old(clock) <= clock && Kept(me, old(s), s)
        invariant forall j: nat :: old(clock) <= j < clock ==> mid(j).q == Queue([], false)
        decreases horizon - clock
      {
        LookAgain();
        if clock >= horizon { return true; }
        Yield();
      }
      return false;
    }

    /** A look that finds the queue empty and open. */
    method LookAgain()
      requires InTurn() && me == Sender && threads.sender.Dequeuing? && queue == [] && !sealed
      modifies this`clock
      ensures OnTrack() && clock == old(clock) + 1 && mid(old(clock)).q == Queue([], false)
    {
      Tick();
    }

    /** The moving part. */
    method TakeInto(buffer: array<Message>) returns (n: nat)
      requires InTurn() && me == Sender && threads.sender.Dequeuing? && buffer.Length == queueSize && (queue != [] || sealed)
      modifies this`queue, this`threads, this`clock, this`s, buffer
      ensures OnTrack() && clock == old(clock) + 1 && n == M.Min(|old(queue)|, queueSize)
      ensures buffer[..n] == old(queue)[..n] && queue == old(queue)[n..]
      ensures threads == if n == 0 then old(threads).(sender := Cancelling)
                         else old(threads).(sender := Feeding, batch := buffer[..n])
    {
      n := M.Min(|queue|, buffer.Length);
      forall i | 0 <= i < n { buffer[i] := queue[i]; }
      assert buffer[..n] == queue[..n];
      Take(n);
      Tick();
    }

    /** Puts the sender's buffer on Input, message by message. */
    method FeedAll(buffer: array<Message>, n: nat)
      requires OnTrack() && me == Sender && 0 < n <= buffer.Length && threads.sender.Feeding? && threads.batch == buffer[..n]
      modifies this
      ensures OnTrack() && clock == old(clock) + n && threads.sender.Dequeuing? && threads.batch == []
      ensures input == old(input) + buffer[..n]
    {
      for i := 0 to n
        invariant OnTrack() && clock == old(clock) + i && input == old(input) + buffer[..i]
        invariant threads.batch == buffer[i..n] && threads.sender == if i < n then Feeding else Dequeuing
      {
        Yield();
        FeedInput(buffer[i]);
        Tick();
        assert buffer[..i + 1] == buffer[..i] + [buffer[i]];
      }
    }

    method DrainAll()
      requires OnTrack() && me == Sender && threads.sender.Dequeuing? && threads.batch == []
      modifies this
      ensures OnTrack() && old(clock) <= clock
      ensures clock >= horizon || threads.sender.Gone?
    {
      var buffer := new Message[queueSize](_ => Message("", "", ""));
      while clock < horizon
        invariant OnTrack() && old(clock) <= clock && threads.sender.Dequeuing? && threads.batch == []
        decreases horizon - clock
      {
        var n, cut := DequeueTo(buffer);
        if cut { break; }
        if n <= 0 {
          Yield();
          SubCancel();
          Tick();
          break;
        }
        FeedAll(buffer, n);
      }
    }

    /** The sender goroutine takes the producer exactly where its trace leads, for as long as it is observed
        or until it is gone; then Input has received exactly the accepted messages.  What had been accepted
        at any step is on Input two steps later for each message then queued and one for each in the
        buffer; and once the queue is sealed the sender is gone after SendsLeft more steps. */
    method SenderLoop()
      requires OnTrack() && me == Sender && threads.sender.Dequeuing? && threads.batch == []
      modifies this
      ensures OnTrack() && old(clock) <= clock
      ensures clock >= horizon || threads.sender.Gone?
      ensures threads.sender.Gone? ==> input == s.h.accepted
      ensures forall k: nat :: Sealed(at(k)) && k + SendsLeft(at(k)) <= horizon ==> threads.sender.Gone?
      ensures forall k: nat :: k + 2 * |at(k).q.items| + |at(k).t.batch| <= horizon ==> at(k).h.accepted <= input
    {
      DrainAll();
      forall k: nat | k + 2 * |at(k).q.items| + |at(k).t.batch| <= horizon ensures at(k).h.accepted <= input {
        var m := k + HandOverBound(at(k));
        if clock >= m {
          HandsOverWithin(at, queueSize, sched, k, clock);
        } else {
          HandsOverWithin(at, queueSize, sched, k, m);
          GoneHandsOverNothing(at, queueSize, sched, clock, m - clock);
        }
      }
      TraceInv(at, me, queueSize, sched, clock);
      assert s.h.input + [] + [] == s.h.input;
      if clock >= horizon {
        forall k: nat | Sealed(at(k)) && k + SendsLeft(at(k)) <= horizon ensures threads.sender.Gone? {
          SenderEndsWithin(at, queueSize, sched, k, clock - k);
        }
      }
    }

    /** The status goroutine selects until it may leave: it stays through every turn in which neither its
        context is done nor the channels are closed, and leaves in the first one that finds it so. */
    method StatusLoop()
      requires OnTrack() && me == Reader && threads.reader
      modifies this
      ensures OnTrack() && old(clock) <= clock
      ensures clock >= horizon || !threads.reader
      ensures forall k: nat :: old(clock) <= k < clock - 1 ==> !mid(k).f.subDone && !mid(k).f.closed
      ensures clock > old(clock) && threads.reader ==> !mid(clock - 1).f.subDone && !mid(clock - 1).f.closed
    {
      while clock < horizon
        invariant OnTrack() && old(clock) <= clock && threads.reader
        invariant forall k: nat :: old(clock) <= k < clock ==> !mid(k).f.subDone && !mid(k).f.closed
        decreases horizon - clock
      {
        Yield();
        var leave := Select();
        Tick();
        if leave { break; }
      }
    }
  }
}
