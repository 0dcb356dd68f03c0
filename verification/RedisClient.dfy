/** The Redis publisher in the form the source gives it: reconnectLoop, dbConnect, startPublish and
    PublishArray as loops over fields updated in place, run while the schedule lets Publish and Close
    calls take their steps in between.  Valid ties the fields to the machine's state `s`, and OnTrack
    says that the publisher is exactly where RedisTrace puts it after `clock` steps of its goroutine. */
module RedisClient {
  import M = Machine
  import opened RedisPublisher
  import opened RedisTrace
  import T = RedisTheorems

  /** How a round of startPublish ended; Cut: with the observation. */
  datatype Round = Again | Leave | Cut

  ghost predicate Taken(w: Worker, messages: seq<Message>, inDrain: bool, valid: bool) {
    w.pc == Array(LoadMode) && w.job.batch == messages && w.job.retries == 0 && w.job.inDrain == inDrain && w.job.open == valid
  }

  /** Under draining a failure counts; the third one ends the batch, any other leads back to another call. */
  ghost predicate Retried(w: Worker, w': Worker, v: bool) {
    if v && w.job.retries + 1 >= 3 then w'.pc == AfterArray(w) && w'.job.batch == []
    else w' == w.(pc := Array(LoadMode), job := w.job.(retries := w.job.retries + if v then 1 else 0))
  }

  /** The batch of the worker has become the last settled one, published or dropped. */
  ghost predicate Settled(w: Worker, w': Worker, settled: seq<Outcome>, settled': seq<Outcome>, ok: bool) {
    && w'.pc == AfterArray(w) && w'.job.batch == [] && w'.job.inDrain == w.job.inDrain && w'.job.open == w.job.open
    && |settled'| == |settled| + 1 && settled'[..|settled|] == settled
    && settled'[|settled|].batch == w.job.batch && settled'[|settled|].ok == ok
  }

  /** What the draining check after a failed call does. */
  lemma RetryStep(s: State)
    requires s.w.pc == Array(ArrayPc.LoadRetry) && s.w.job.batch != []
    ensures var t, v := Step(s, Move), s.f.draining;
      && t.q == s.q && t.f == s.f && t.calls == s.calls && t.w.handler == s.w.handler && !Registered(t.w.pc) == !Registered(s.w.pc)
      && Retried(s.w, t.w, v) && t.h.attempts == s.h.attempts
      && if v && s.w.job.retries + 1 >= 3 then Settled(s.w, t.w, s.h.settled, t.h.settled, false)
         else t.h.settled == s.h.settled
  {}

  lemma PingStep(s: State, ok: bool)
    requires s.w.pc == Loop(Pinging)
    ensures Step(s, Ping(ok)) == s.(w := s.w.(pc := Loop(if ok then LoopPc.StoreUp else LoopPc.StoreDown), handler := true))
  {}

  function AfterEmpty(pc: Pc, valid: bool): Pc {
    Publishing(if pc == Publishing(DrainDequeue) then Leaving(ViaDrain)
               else if valid then PublishPc.LoadDraining else Leaving(ViaClosedQueue))
  }

  class RedisPub {
    const bufferSize: nat
    // the schedule, and the number of the goroutine's steps after which observation ends
    const sched: nat -> Turn
    const horizon: nat
    // LockedRingBuffer, as its callers see it
    var queue: seq<Message>
    var sealed: bool
    // atomics, the toolkit and the WaitGroup
    var draining: bool
    var connected: bool
    var handler: bool
    var wg: nat
    // goroutines inside Publish, and how far the Close calls have come
    var calls: map<nat, Message>
    var disconnected: bool
    var passed: bool
    var stopped: bool
    // atomic steps the goroutine has made
    var clock: nat

    ghost var s: State

    // the machine after the k-th own step, and at the k-th own step, after the others' part of that turn
    ghost const at: nat -> State
    ghost const mid: nat -> State

    ghost predicate Scheduled() {
      && Follows(at, bufferSize, sched)
      && (forall k: nat {:trigger Others(at(k), sched(k).others)} :: mid(k) == Others(at(k), sched(k).others))
    }

    ghost predicate Valid()
      reads this
    {
      && bufferSize > 0 && Scheduled()
      && s.q == Queue(queue, sealed)
      && s.f == Flags(draining, connected, disconnected, passed, stopped)
      && s.calls == calls && s.w.handler == handler
      && wg == if Registered(s.w.pc) then 1 else 0
    }

    /** What the goroutine's k-th step reads. */
    ghost function Seen(k: nat): Flags { mid(k).f }

    ghost predicate OnTrack()
      reads this
    {
      Valid() && s == at(clock)
    }

    ghost predicate InTurn()
      reads this
    {
      Valid() && s == mid(clock)
    }

    constructor (bufferSize: nat, sched: nat -> Turn, horizon: nat)
      requires bufferSize > 0
      ensures OnTrack() && clock == 0 && s == Init
      ensures this.bufferSize == bufferSize && this.sched == sched && this.horizon == horizon
    {
      this.bufferSize, this.sched, this.horizon := bufferSize, sched, horizon;
      queue, sealed, clock := [], false, 0;
      draining, connected, handler, wg := false, false, true, 0;
      calls, disconnected, passed, stopped := map[], false, false, false;
      s := Init;
      at := (k: nat) => Trace(bufferSize, sched, k);
      mid := (k: nat) => Others(Trace(bufferSize, sched, k), sched(k).others);
    }

    // ---- Publish and Close ----

    method PublishCheck(id: nat, msg: Message) returns (accepted: bool)
      requires Valid() && id !in calls
      modifies this`calls, this`s
      ensures Valid() && s == Step(old(s), Event.PublishCheck(id, msg))
      ensures accepted == !draining && calls == if accepted then old(calls)[id := msg] else old(calls)
    {
      accepted := !draining;
      if accepted { calls := calls[id := msg]; }
      s := Step(s, Event.PublishCheck(id, msg));
    }

    /** The Enqueue of a Publish call: false when the queue is closed. */
    method PublishEnqueue(id: nat) returns (ok: bool)
      requires Valid() && id in calls
      modifies this`calls, this`queue, this`s
      ensures Valid() && s == Step(old(s), Event.PublishEnqueue(id)) && calls == old(calls) - {id}
      ensures ok == !sealed && queue == if ok then old(queue) + [old(calls)[id]] else old(queue)
    {
      ok := !sealed;
      if ok { queue := queue + [calls[id]]; }
      calls := calls - {id};
      s := Step(s, Event.PublishEnqueue(id));
    }

    method PublishFull(id: nat) returns (ok: bool)
      requires Valid()
      modifies this`calls, this`s
      ensures Valid() && s == Step(old(s), Event.PublishFull(id)) && !ok && calls == old(calls) - {id}
    {
      ok := false;
      calls := calls - {id};
      s := Step(s, Event.PublishFull(id));
    }

    /** Close's two stores, in this order. */
    method StoreDraining()
      requires Valid()
      modifies this`draining, this`s
      ensures Valid() && s == Step(old(s), CloseDraining) && draining
    {
      draining := true;
      s := Step(s, CloseDraining);
    }

    method StoreDisconnected()
      requires Valid() && draining
      modifies this`connected, this`disconnected, this`s
      ensures Valid() && s == Step(old(s), CloseConnected) && !connected && disconnected
    {
      connected, disconnected := false, true;
      s := Step(s, CloseConnected);
    }

    /** wg.Wait: blocks while the goroutine is registered. */
    method CloseWait()
      requires Valid() && disconnected && wg == 0
      modifies this`passed, this`s
      ensures Valid() && s == Step(old(s), Event.CloseWait) && passed
    {
      passed := true;
      s := Step(s, Event.CloseWait);
    }

    method CloseSeal()
      requires Valid() && passed
      modifies this`sealed, this`s
      ensures Valid() && s == Step(old(s), CloseQueue) && sealed
    {
      sealed := true;
      s := Step(s, CloseQueue);
    }

    method StopHandler()
      requires Valid() && sealed
      modifies this`stopped, this`s
      ensures Valid() && s == Step(old(s), CloseStop) && stopped
    {
      stopped := true;
      s := Step(s, CloseStop);
    }

    /** One step of a Publish or Close call; nothing if no call is at it. */
    method Perform(e: Event)
      requires Valid() && !IsWork(e)
      modifies this
      ensures Valid() && s == Step(old(s), e) && clock == old(clock)
    {
      match e {
        case PublishCheck(id, m) => if id !in calls { var _ := PublishCheck(id, m); }
        case PublishEnqueue(id) => if id in calls { var _ := PublishEnqueue(id); }
        case PublishFull(id) => var _ := PublishFull(id);
        case CloseDraining => StoreDraining();
        case CloseConnected => if draining { StoreDisconnected(); }
        case CloseWait => if disconnected && wg == 0 { CloseWait(); }
        case CloseQueue => if passed { CloseSeal(); }
        case CloseStop => if sealed { StopHandler(); }
      }
    }

    /** Lets the other goroutines take their part of the next turn. */
    method Yield()
      requires OnTrack()
      modifies this
      ensures InTurn() && clock == old(clock) && Kept(old(s), s)
    {
      var others := sched(clock).others;
      ghost var start := s;
      for i := 0 to |others|
        invariant Valid() && clock == old(clock) && s == Others(start, others[..i]) && Kept(start, s)
      {
        M.TheirsSnoc(Step, IsWork, start, others, i);
        if !IsWork(others[i]) {
          OtherKeeps(s, others[i]);
          Perform(others[i]);
        }
      }
      assert others[..|others|] == others && mid(clock) == Others(at(clock), sched(clock).others);
    }

    /** The goroutine's own step completes the turn. */
    ghost method Own(e: Event)
      requires Scheduled() && s == mid(clock) && e == OwnEvent(bufferSize, s, sched(clock).ok)
      modifies this`s
      ensures s == Step(old(s), e) && s == at(clock + 1)
    {
      s := Step(s, e);
      NextTurn(at, bufferSize, sched, clock);
      assert mid(clock) == Others(at(clock), sched(clock).others);
    }

    ghost method OwnMove()
      requires Scheduled() && s == mid(clock) && OwnEvent(bufferSize, s, sched(clock).ok) == Move
      modifies this`s
      ensures s == Step(old(s), Move) && s == at(clock + 1)
    {
      Own(Move);
    }

    /** One step done, nothing settled or attempted by it. */
    ghost predicate Moved(k: nat, h: History)
      reads this
    {
      OnTrack() && clock == k + 1 && s.h.settled == h.settled && s.h.attempts == h.attempts
    }

    // ---- atomic steps of the goroutine ----

    /** reconnectLoop's draining check. */
    method LoopDraining() returns (v: bool)
      requires OnTrack() && s.w.pc == Loop(LoopLoadDraining)
      modifies this
      ensures Moved(old(clock), old(s.h)) && v == Seen(old(clock)).draining
      ensures s.w == old(s.w).(pc := Loop(if v then Stopped else LoopLoadConnected))
    {
      Yield();
      v := draining;
      Own(Move);
      clock := clock + 1;
    }

    /** startPublish's first draining check: drain or go on. */
    method LoadDraining() returns (v: bool)
      requires OnTrack() && s.w.pc == Publishing(PublishPc.LoadDraining)
      modifies this
      ensures Moved(old(clock), old(s.h)) && v == Seen(old(clock)).draining
      ensures s.w == old(s.w).(pc := Publishing(if v then DrainDequeue else PublishPc.LoadConnected))
    {
      Yield();
      v := draining;
      Own(Move);
      clock := clock + 1;
    }

    /** startPublish's second draining check, with the link read as down: stay or leave. */
    method LoadDrainingAgain() returns (v: bool)
      requires OnTrack() && s.w.pc == Publishing(PublishPc.LoadDrainingAgain)
      modifies this
      ensures Moved(old(clock), old(s.h)) && v == Seen(old(clock)).draining
      ensures s.w == old(s.w).(pc := Publishing(if v then TryDequeue else Leaving(ViaDisconnect)))
    {
      Yield();
      v := draining;
      Own(Move);
      clock := clock + 1;
    }

    /** PublishArray's draining check after an error: the upper layer is told only when not draining. */
    method LoadOnError() returns (v: bool)
      requires OnTrack() && s.w.pc == Array(ArrayPc.LoadOnError)
      modifies this
      ensures Moved(old(clock), old(s.h)) && v == Seen(old(clock)).draining
      ensures s.w == old(s.w).(pc := Array(if v then ArrayPc.LoadRetry else StoreOnError))
    {
      Yield();
      v := draining;
      Own(Move);
      clock := clock + 1;
    }

    /** PublishArray's choice between the drain context and the toolkit's own. */
    method LoadMode() returns (forced: bool)
      requires OnTrack() && s.w.pc == Array(ArrayPc.LoadMode)
      modifies this
      ensures Moved(old(clock), old(s.h)) && forced == Seen(old(clock)).draining
      ensures s.w == old(s.w).(pc := Array(Sending), job := old(s.w.job).(forced := forced))
    {
      Yield();
      forced := draining;
      Own(Move);
      clock := clock + 1;
    }

    method LoopConnected() returns (v: bool)
      requires OnTrack() && s.w.pc == Loop(LoopLoadConnected)
      modifies this
      ensures Moved(old(clock), old(s.h)) && v == Seen(old(clock)).connected
      ensures s.w == old(s.w).(pc := Loop(if v then LoopLoadDraining else Pinging))
    {
      Yield();
      v := connected;
      Own(Move);
      clock := clock + 1;
    }

    method LoadConnected() returns (v: bool)
      requires OnTrack() && s.w.pc == Publishing(PublishPc.LoadConnected)
      modifies this
      ensures Moved(old(clock), old(s.h)) && v == Seen(old(clock)).connected
      ensures s.w == old(s.w).(pc := Publishing(if v then TryDequeue else PublishPc.LoadDrainingAgain))
    {
      Yield();
      v := connected;
      Own(Move);
      clock := clock + 1;
    }

    /** The draining check after a failed call; under draining it costs a retry and may end the batch. */
    method LoadRetry() returns (v: bool)
      requires OnTrack() && s.w.pc == Array(ArrayPc.LoadRetry) && s.w.job.batch != []
      modifies this
      ensures OnTrack() && clock == old(clock) + 1 && v == Seen(old(clock)).draining && connected == Seen(old(clock)).connected
      ensures Retried(old(s.w), s.w, v) && s.h.attempts == old(s.h.attempts)
      ensures if v && old(s.w.job.retries) + 1 >= 3 then Settled(old(s.w), s.w, old(s.h.settled), s.h.settled, false)
              else s.h.settled == old(s.h.settled)
    {
      Yield();
      v := draining;
      RetryStep(s);
      OwnMove();
      clock := clock + 1;
    }

    /** onError: connected is stored false. */
    method OnError()
      requires OnTrack() && s.w.pc == Array(StoreOnError)
      modifies this
      ensures Moved(old(clock), old(s.h)) && !connected && draining == Seen(old(clock)).draining
      ensures s.w == old(s.w).(pc := Array(ArrayPc.LoadRetry))
    {
      Yield();
      connected := false;
      Own(Move);
      clock := clock + 1;
    }

    /** PublishArrayWithCtx under draining, PublishArray otherwise: the call starts. */
    method StartCall(messages: seq<Message>, forced: bool)
      requires OnTrack() && s.w.pc == Array(Sending) && messages == s.w.job.batch != [] && forced == s.w.job.forced
      modifies this
      ensures OnTrack() && clock == old(clock) + 1 && s.h.settled == old(s.h.settled)
      ensures s.h.attempts == old(s.h.attempts) + [Attempt(|s.h.settled|, messages, forced)]
      ensures s.w.pc == Array(Awaiting) && s.w.job.batch == messages && s.w.job.retries == old(s.w.job.retries)
      ensures s.w.job.inDrain == old(s.w.job.inDrain) && s.w.job.open == old(s.w.job.open)
    {
      Yield();
      Own(Send);
      clock := clock + 1;
    }

    /** And returns: without an error the batch is settled. */
    method EndCall() returns (ok: bool)
      requires OnTrack() && s.w.pc == Array(Awaiting)
      modifies this
      ensures OnTrack() && clock == old(clock) + 1 && ok == sched(old(clock)).ok && s.h.attempts == old(s.h.attempts)
      ensures ok ==> Settled(old(s.w), s.w, old(s.h.settled), s.h.settled, true)
      ensures !ok ==> s.h.settled == old(s.h.settled) && s.w == old(s.w).(pc := Array(ArrayPc.LoadOnError))
    {
      Yield();
      ok := sched(clock).ok;
      Own(Answer(ok));
      clock := clock + 1;
    }

    /** wg.Done on the way out of startPublish. */
    method Done()
      requires OnTrack() && s.w.pc.Publishing? && s.w.pc.p.Leaving?
      modifies this
      ensures Moved(old(clock), old(s.h)) && s.w == old(s.w).(pc := Loop(LoopLoadDraining)) && wg == 0
    {
      Yield();
      wg := 0;
      Own(Move);
      clock := clock + 1;
    }

    /** TryDequeueTo or DequeueBatchNoWait of at most `room` messages, from the head of the queue. */
    method TakeBatch(room: nat) returns (messages: seq<Message>, valid: bool)
      requires OnTrack() && (s.w.pc == Publishing(TryDequeue) || s.w.pc == Publishing(DrainDequeue))
      requires room == if s.w.pc == Publishing(TryDequeue) then BatchSize(bufferSize) else bufferSize
      modifies this
      ensures Moved(old(clock), old(s.h)) && valid == !mid(old(clock)).q.sealed
      ensures var q := mid(old(clock)).q.items;
        messages == q[..M.Min(|q|, room)] && queue == q[|messages|..] && (messages == [] <==> q == [])
      ensures messages != [] ==> Taken(s.w, messages, old(s.w.pc) == Publishing(DrainDequeue), valid)
      ensures messages == [] ==> s.w.pc == AfterEmpty(old(s.w.pc), valid)
    {
      Yield();
      valid := !sealed;
      messages := TakeNow(M.Min(|queue|, room));
    }

    method TakeNow(n: nat) returns (messages: seq<Message>)
      requires InTurn() && Dequeue(n) == OwnEvent(bufferSize, s, sched(clock).ok)
      requires s.w.pc == Publishing(TryDequeue) || s.w.pc == Publishing(DrainDequeue)
      requires n <= |queue| && (n == 0 <==> queue == [])
      modifies this`queue, this`clock, this`s
      ensures Moved(old(clock), old(s.h)) && messages == old(queue)[..n] && queue == old(queue)[n..]
      ensures messages != [] ==> Taken(s.w, messages, old(s.w.pc) == Publishing(DrainDequeue), !sealed)
      ensures messages == [] ==> s.w.pc == AfterEmpty(old(s.w.pc), !sealed)
    {
      messages, queue := queue[..n], queue[n..];
      OwnDequeue(n, messages, !sealed);
      clock := clock + 1;
    }

    ghost method OwnDequeue(n: nat, messages: seq<Message>, valid: bool)
      requires Scheduled() && s == mid(clock) && Dequeue(n) == OwnEvent(bufferSize, s, sched(clock).ok)
      requires s.w.pc == Publishing(TryDequeue) || s.w.pc == Publishing(DrainDequeue)
      requires n <= |s.q.items| && messages == s.q.items[..n] && (n == 0 <==> s.q.items == []) && valid == !s.q.sealed
      modifies this`s
      ensures s == at(clock + 1) && s.q == old(s.q).(items := old(s.q.items)[n..])
      ensures s.f == old(s.f) && s.calls == old(s.calls) && s.h == old(s.h) && s.w.handler == old(s.w.handler)
      ensures messages != [] ==> Taken(s.w, messages, old(s.w.pc) == Publishing(DrainDequeue), valid)
      ensures messages == [] ==> s.w.pc == AfterEmpty(old(s.w.pc), valid)
    {
      Own(Dequeue(n));
    }

    // ---- PublishArray ----

    /** The call with exactly these messages: settled by success, kept by failure. */
    method SdkPublish(messages: seq<Message>, forced: bool) returns (ok: bool)
      requires OnTrack() && s.w.pc == Array(Sending) && messages == s.w.job.batch != [] && forced == s.w.job.forced
      modifies this
      ensures OnTrack() && clock == old(clock) + 2 && ok == sched(old(clock) + 1).ok
      ensures s.h.attempts == old(s.h.attempts) + [Attempt(|old(s.h.settled)|, messages, forced)]
      ensures ok ==> Settled(old(s.w), s.w, old(s.h.settled), s.h.settled, true)
      ensures !ok ==> s.h.settled == old(s.h.settled) && s.w.pc == Array(ArrayPc.LoadOnError)
      ensures !ok ==> s.w.job.batch == messages && s.w.job.retries == old(s.w.job.retries)
      ensures s.w.job.inDrain == old(s.w.job.inDrain) && s.w.job.open == old(s.w.job.open)
    {
      StartCall(messages, forced);
      ok := EndCall();
    }

    /** After a failed call: connected is stored false, by onError, exactly when draining was not set. */
    method Report()
      requires OnTrack() && s.w.pc == Array(ArrayPc.LoadOnError)
      modifies this
      ensures OnTrack() && s.w == old(s.w).(pc := Array(ArrayPc.LoadRetry))
      ensures s.h.settled == old(s.h.settled) && s.h.attempts == old(s.h.attempts)
      ensures clock == old(clock) + if Seen(old(clock)).draining then 1 else 2
      ensures !Seen(old(clock)).draining ==> !connected
    {
      var v := LoadOnError();
      if !v { OnError(); }
    }

    /** After a failed call: report when not draining; count a retry when draining, the third settles the batch. */
    method Failed() returns (v: bool)
      requires OnTrack() && s.w.pc == Array(ArrayPc.LoadOnError) && s.w.job.batch != []
      modifies this
      ensures OnTrack() && clock == old(clock) + (if Seen(old(clock)).draining then 2 else 3)
      ensures v == Seen(clock - 1).draining
      ensures Retried(old(s.w), s.w, v) && s.h.attempts == old(s.h.attempts)
      ensures if v && old(s.w.job.retries) + 1 >= 3 then Settled(old(s.w), s.w, old(s.h.settled), s.h.settled, false)
              else s.h.settled == old(s.h.settled)
    {
      Report();
      v := LoadRetry();
    }

    /** Every attempt made since is of this batch. */
    ghost predicate OnlyOf(messages: seq<Message>, h: History)
      reads this
    {
      && h.attempts <= s.h.attempts
      && forall i :: |h.attempts| <= i < |s.h.attempts| ==> s.h.attempts[i].index == |h.settled| && s.h.attempts[i].batch == messages
    }

    /** Retries without end in normal mode, at most three failures once draining; returns with exactly this
        batch settled, or when observation ends.  A batch that was published was attempted, one that was
        dropped was attempted three times or more, and nothing else was attempted meanwhile. */
    method PublishArray(messages: seq<Message>) returns (settled: bool)
      requires OnTrack() && s.w.pc == Array(ArrayPc.LoadMode) && s.w.job.batch == messages != [] && s.w.job.retries == 0
      modifies this
      ensures OnTrack() && old(clock) <= clock
      ensures settled ==> var ok := |s.h.settled| > |old(s.h.settled)| && s.h.settled[|old(s.h.settled)|].ok;
        && Settled(old(s.w), s.w, old(s.h.settled), s.h.settled, ok)
        && |s.h.attempts| >= |old(s.h.attempts)| + if ok then 1 else 3
      ensures !settled ==> clock >= horizon && s.h.settled == old(s.h.settled)
      ensures OnlyOf(messages, old(s.h))
    {
      var drainRetries := 0;
      while clock < horizon
        invariant OnTrack() && old(clock) <= clock && s.h.settled == old(s.h.settled)
        invariant OnlyOf(messages, old(s.h)) && |s.h.attempts| >= |old(s.h.attempts)| + drainRetries
        invariant InJob(messages, drainRetries, old(s.w.job))
        decreases horizon - clock
      {
        var ok, v := CallOnce(messages, drainRetries);
        if ok { return true; }
        if v {
          drainRetries := drainRetries + 1;
          if drainRetries >= MaxDrainRetries { return true; }
        }
      }
      return false;
    }

    /** About to make a call for `messages`, `retries` failures of which were counted. */
    ghost predicate InJob(messages: seq<Message>, retries: nat, job: Job)
      reads this
    {
      && s.w.pc == Array(ArrayPc.LoadMode) && s.w.job.batch == messages && s.w.job.retries == retries < 3
      && s.w.job.inDrain == job.inDrain && s.w.job.open == job.open
    }

    /** One call, and after a failure what follows from it: `v`, it was counted. */
    method CallOnce(messages: seq<Message>, retries: nat) returns (ok: bool, v: bool)
      requires OnTrack() && InJob(messages, retries, s.w.job) && messages != []
      modifies this
      ensures OnTrack() && old(clock) < clock && |s.h.attempts| == |old(s.h.attempts)| + 1
      ensures s.h.attempts == old(s.h.attempts) + [Attempt(|old(s.h.settled)|, messages, Seen(old(clock)).draining)]
      ensures ok == sched(old(clock) + 2).ok && (!ok ==> v == Seen(clock - 1).draining)
      ensures ok ==> Settled(old(s.w), s.w, old(s.h.settled), s.h.settled, true)
      ensures !ok && v && retries + 1 >= 3 ==> Settled(old(s.w), s.w, old(s.h.settled), s.h.settled, false)
      ensures !ok && !(v && retries + 1 >= 3) ==>
        s.h.settled == old(s.h.settled) && InJob(messages, retries + (if v then 1 else 0), old(s.w.job))
    {
      var forced := LoadMode();
      ok := SdkPublish(messages, forced);
      v := false;
      if !ok { v := Failed(); }
    }

    // ---- startPublish ----

    /** The drain loop: publishes what is left in the queue; it ends only on an empty queue. */
    method DrainRemaining() returns (drained: bool)
      requires OnTrack() && s.w.pc == Publishing(DrainDequeue)
      modifies this
      ensures OnTrack() && old(clock) <= clock
      ensures drained ==> s.w.pc == Publishing(Leaving(ViaDrain)) && queue == []
      ensures !drained ==> clock >= horizon
    {
      while clock < horizon
        invariant OnTrack() && old(clock) <= clock && s.w.pc == Publishing(DrainDequeue)
        decreases horizon - clock
      {
        var remain, _ := TakeBatch(bufferSize);
        if remain == [] { return true; }
        var settled := PublishArray(remain);
        if !settled { return false; }
      }
      return false;
    }

    /** One round of startPublish while not draining: link check, then one batch. */
    method PublishRound() returns (round: Round)
      requires OnTrack() && s.w.pc == Publishing(PublishPc.LoadConnected)
      modifies this
      ensures OnTrack() && old(clock) < clock
      ensures round.Again? ==> s.w.pc == Publishing(PublishPc.LoadDraining)
      ensures round.Leave? ==> s.w.pc.Publishing? && s.w.pc.p.Leaving?
      ensures round.Cut? ==> clock >= horizon
      ensures !Seen(old(clock)).connected && !Seen(old(clock) + 1).draining ==>
        round.Leave? && clock == old(clock) + 2 && s.w.pc == Publishing(Leaving(ViaDisconnect))
    {
      var up := LoadConnected();
      if !up {
        var v := LoadDrainingAgain();
        if !v { return Leave; }
      }
      round := PublishBatch();
    }

    /** TryDequeueTo and, if it found messages, PublishArray; out when the queue was closed. */
    method PublishBatch() returns (round: Round)
      requires OnTrack() && s.w.pc == Publishing(TryDequeue)
      modifies this
      ensures OnTrack() && old(clock) < clock
      ensures round.Again? ==> s.w.pc == Publishing(PublishPc.LoadDraining) && !mid(old(clock)).q.sealed
      ensures round.Leave? ==> s.w.pc == Publishing(Leaving(ViaClosedQueue)) && mid(old(clock)).q.sealed
      ensures round.Cut? ==> clock >= horizon
    {
      var messages, valid := TakeBatch(BatchSize(bufferSize));
      if messages != [] {
        var settled := PublishArray(messages);
        if !settled { return Cut; }
      }
      return if valid then Again else Leave;
    }

    /** The head of startPublish: nothing to do without a handler, else wg.Add. */
    method Register() returns (registered: bool)
      requires OnTrack() && s.w.pc == Loop(Adding)
      modifies this
      ensures Moved(old(clock), old(s.h)) && registered == old(handler) && wg == (if registered then 1 else 0)
      ensures s.w.pc == if registered then Publishing(PublishPc.LoadDraining) else Loop(LoopLoadDraining)
    {
      Yield();
      registered := handler;
      if registered { wg := 1; }
      Own(Move);
      clock := clock + 1;
    }

    /** startPublish: registered from wg.Add to wg.Done; true when it ran to its end. */
    method StartPublish() returns (ended: bool)
      requires OnTrack() && s.w.pc == Loop(Adding)
      modifies this
      ensures OnTrack() && old(clock) < clock
      ensures ended ==> s.w.pc == Loop(LoopLoadDraining) && wg == 0
      ensures !ended ==> clock >= horizon
    {
      var registered := Register();
      if !registered { return true; }
      ended := PublishLoop();
      if ended { Done(); }
    }

    /** The loop of startPublish up to its return. */
    method PublishLoop() returns (leaving: bool)
      requires OnTrack() && s.w.pc == Publishing(PublishPc.LoadDraining)
      modifies this
      ensures OnTrack() && old(clock) <= clock
      ensures leaving ==> s.w.pc.Publishing? && s.w.pc.p.Leaving?
      ensures !leaving ==> clock >= horizon
    {
      while clock < horizon
        invariant OnTrack() && old(clock) <= clock && s.w.pc == Publishing(PublishPc.LoadDraining)
        decreases horizon - clock
      {
        var v := LoadDraining();
        if v {
          leaving := DrainRemaining();
          return;
        }
        var round := PublishRound();
        if !round.Again? { return round.Leave?; }
      }
      return false;
    }

    // ---- reconnectLoop ----

    /** dbConnect: a handler if there is none, then a ping; its outcome is stored in `connected`, and a
        failure leaves no handler. */
    method DbConnect() returns (ok: bool)
      requires OnTrack() && s.w.pc == Loop(Pinging)
      modifies this
      ensures OnTrack() && clock == old(clock) + 2 && ok == sched(old(clock)).ok
      ensures connected == ok && handler == ok
      ensures s.w.pc == Loop(if ok then Adding else LoopLoadDraining)
    {
      ok := SdkPing();
      if ok { StoreUp(); } else { StoreDown(); }
    }

    method SdkPing() returns (ok: bool)
      requires OnTrack() && s.w.pc == Loop(Pinging)
      modifies this
      ensures Moved(old(clock), old(s.h)) && ok == sched(old(clock)).ok && handler
      ensures s.w.pc == Loop(if ok then LoopPc.StoreUp else LoopPc.StoreDown)
    {
      Yield();
      ok := sched(clock).ok;
      PingNow(ok);
    }

    method PingNow(ok: bool)
      requires InTurn() && s.w.pc == Loop(Pinging) && ok == sched(clock).ok
      modifies this`handler, this`clock, this`s
      ensures Moved(old(clock), old(s.h)) && handler
      ensures s.w.pc == Loop(if ok then LoopPc.StoreUp else LoopPc.StoreDown)
    {
      PingStep(s, ok);
      handler := true;
      Own(Ping(ok));
      clock := clock + 1;
    }

    method StoreUp()
      requires OnTrack() && s.w.pc == Loop(LoopPc.StoreUp)
      modifies this
      ensures Moved(old(clock), old(s.h)) && connected && handler == old(handler) && s.w.pc == Loop(Adding)
    {
      Yield();
      connected := true;
      Own(Move);
      clock := clock + 1;
    }

    method StoreDown()
      requires OnTrack() && s.w.pc == Loop(LoopPc.StoreDown)
      modifies this
      ensures Moved(old(clock), old(s.h)) && !connected && !handler && s.w.pc == Loop(LoopLoadDraining)
    {
      Yield();
      connected, handler := false, false;
      Own(Move);
      clock := clock + 1;
    }

    method ConnectAndPublish()
      requires OnTrack() && s.w.pc == Loop(LoopLoadDraining)
      modifies this
      ensures OnTrack() && old(clock) <= clock
      ensures clock >= horizon || s.w.pc == Loop(Stopped)
    {
      while clock < horizon
        invariant OnTrack() && old(clock) <= clock && s.w.pc == Loop(LoopLoadDraining)
        decreases horizon - clock
      {
        var v := LoopDraining();
        if v { return; }
        var up := LoopConnected();
        if !up {
          var ok := DbConnect();
          if ok {
            var ended := StartPublish();
            if !ended { return; }
          }
        }
      }
    }

    /** reconnectLoop, the body of Start, takes the publisher exactly where its trace leads, for as long as
        it is observed or until it sees draining.  However often the link went down and came back, every
        accepted message is in a settled batch, in the current one or still queued, in order, and until
        draining every settled batch was published.  While Redis answers, everything accepted is published
        within PublishBound steps, from wherever the goroutine is; once draining is set the loop has returned
        after Work more of its steps, whatever Redis answers. */
    method ReconnectLoop()
      requires OnTrack() && s.w.pc == Loop(LoopLoadDraining)
      modifies this
      ensures OnTrack() && old(clock) <= clock
      ensures clock >= horizon || s.w.pc == Loop(Stopped)
      ensures s.h.accepted == Flatten(Batches(s.h.settled)) + s.w.job.batch + queue
      ensures !draining ==> AllOk(s.h.settled)
      ensures forall k: nat :: Draining(at(k)) && k + T.Work(at(k)) <= horizon ==> s.w.pc == Loop(Stopped) && wg == 0
      ensures forall k: nat :: Promised(k) ==> at(k).h.accepted <= Flatten(Batches(s.h.settled))
    {
      ConnectAndPublish();
      forall k: nat | Promised(k) ensures at(k).h.accepted <= Flatten(Batches(s.h.settled)) { Keeps(k); }
      TraceInv(at, bufferSize, sched, clock);
      if clock >= horizon {
        forall k: nat | Draining(at(k)) && k + T.Work(at(k)) <= horizon ensures s.w.pc == Loop(Stopped) {
          StopsWithin(at, bufferSize, sched, k, clock - k);
        }
      }
    }

    /** From step k on Redis answers, with Close not called, for long enough. */
    ghost predicate Promised(k: nat) {
      && k + PublishBound(at(k)) <= horizon
      && forall j: nat {:trigger sched(j)} :: k <= j < k + PublishBound(at(k)) ==> sched(j).ok && !Seen(j).draining
    }

    lemma Keeps(k: nat)
      requires OnTrack() && (clock >= horizon || s.w.pc == Loop(Stopped)) && Promised(k)
      ensures at(k).h.accepted <= Flatten(Batches(s.h.settled))
    {
      var m := k + PublishBound(at(k));
      forall j: nat {:trigger sched(j)} | k <= j < m ensures Serving(Others(at(j), sched(j).others), sched(j).ok) {
        assert sched(j).ok && !Seen(j).draining;
      }
      PublishesWithin(at, bufferSize, sched, k);
      if clock >= m {
        LaterKeeps(at, bufferSize, sched, m, clock - m);
      } else if clock < horizon {
        TraceOnItsWay(at, bufferSize, sched, clock);
        var turn := sched(m - 1);
        NotDrainingUpTo(at, bufferSize, sched, clock, m - 1);
      }
    }
  }
}
