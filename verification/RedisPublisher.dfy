/** The Redis publisher: one goroutine alternating between reconnectLoop, dbConnect and
    startPublish, with Publish and Close running beside it and only two atomics and a WaitGroup
    between them.  As in DrainPipe every atomic action is a step and a run is any event sequence. */
module RedisPublisher {
  import C = Channel
  import M = Machine

  datatype Message = Message(topic: string, payload: string)

  /** How startPublish was left. */
  datatype Exit = ViaDrain | ViaDisconnect | ViaClosedQueue

  /** reconnectLoop and dbConnect. */
  datatype LoopPc = LoopLoadDraining | LoopLoadConnected | Pinging | StoreUp | StoreDown | Adding | Stopped

  /** startPublish, from wg.Add to wg.Done. */
  datatype PublishPc = LoadDraining | LoadConnected | LoadDrainingAgain | TryDequeue | DrainDequeue | Leaving(via: Exit)

  /** PublishArray and onError, called from startPublish. */
  datatype ArrayPc = LoadMode | Sending | Awaiting | LoadOnError | StoreOnError | LoadRetry

  datatype Pc = Loop(l: LoopPc) | Publishing(p: PublishPc) | Array(a: ArrayPc)

  /** Between wg.Add and wg.Done. */
  predicate Registered(pc: Pc) { !pc.Loop? }

  const MaxDrainRetries: nat := 3

  datatype Queue = Queue(items: seq<Message>, sealed: bool)

  /** `passed`: a Close call is past wg.Wait; `disconnected`: a Close call has stored connected = false. */
  datatype Flags = Flags(draining: bool, connected: bool, disconnected: bool, passed: bool, stopped: bool)

  /** A PublishArray call: its messages, whether they were sent at least once, the retry counter, the
      calls made, those of them with the drain context, the mode of the current call, whether the drain
      loop is the caller, and whether the queue was open at the dequeue. */
  datatype Job = Job(batch: seq<Message>, tried: bool, retries: nat, calls: nat, drainCalls: nat, forced: bool,
                     inDrain: bool, open: bool)

  /** The goroutine: its position, the batch in its hands, and whether it has a handler. */
  datatype Worker = Worker(pc: Pc, job: Job, handler: bool)

  /** One PublishArray: what became of its batch, how many calls it made, how many with the drain context,
      and how many failures were counted under draining. */
  datatype Outcome = Outcome(batch: seq<Message>, ok: bool, calls: nat, drainCalls: nat, failures: nat)

  /** `index`: which PublishArray call of the run it belongs to; `forced`: made with the drain context. */
  datatype Attempt = Attempt(index: nat, batch: seq<Message>, forced: bool)

  datatype History = History(accepted: seq<Message>, settled: seq<Outcome>, attempts: seq<Attempt>)

  datatype State = State(q: Queue, f: Flags, calls: map<nat, Message>, w: Worker, h: History)

  datatype Event =
    | PublishCheck(id: nat, msg: Message) | PublishEnqueue(id: nat) | PublishFull(id: nat)
    | CloseDraining | CloseConnected | CloseWait | CloseQueue | CloseStop
    | Ping(ok: bool)       // dbConnect: PingE answers
    | Move                 // the load or store the goroutine's position names
    | Dequeue(n: nat)      // TryDequeueTo or DequeueBatchNoWait
    | Send                 // PublishArray or PublishArrayWithCtx starts
    | Answer(ok: bool)     // and returns

  const Idle := Worker(Loop(LoopLoadDraining), Job([], false, 0, 0, 0, false, false, true), true)

  const Init := State(Queue([], false), Flags(false, false, false, false, false), map[], Idle, History([], [], []))

  predicate IsWork(e: Event) { e.Ping? || e.Move? || e.Dequeue? || e.Send? || e.Answer? }

  // ---- steps ----

  function At(s: State, pc: Pc): State { s.(w := s.w.(pc := pc)) }

  /** The loads and stores of reconnectLoop and dbConnect. */
  function MoveLoop(s: State, l: LoopPc): State {
    match l
    case LoopLoadDraining => At(s, Loop(if s.f.draining then Stopped else LoopLoadConnected))
    case LoopLoadConnected => At(s, Loop(if s.f.connected then LoopLoadDraining else Pinging))
    case StoreUp => s.(f := s.f.(connected := true), w := s.w.(pc := Loop(Adding)))
    case StoreDown => s.(f := s.f.(connected := false), w := s.w.(pc := Loop(LoopLoadDraining), handler := false))
    case Adding => At(s, if s.w.handler then Publishing(LoadDraining) else Loop(LoopLoadDraining))
    case _ => s
  }

  /** The loads of startPublish and its deferred wg.Done. */
  function MovePublish(s: State, p: PublishPc): State {
    match p
    case LoadDraining => At(s, Publishing(if s.f.draining then DrainDequeue else LoadConnected))
    case LoadConnected => At(s, Publishing(if s.f.connected then TryDequeue else LoadDrainingAgain))
    case LoadDrainingAgain => At(s, Publishing(if s.f.draining then TryDequeue else Leaving(ViaDisconnect)))
    case Leaving(_) => At(s, Loop(LoopLoadDraining))
    case _ => s
  }

  /** Where PublishArray returns to. */
  function AfterArray(w: Worker): Pc {
    Publishing(if w.job.inDrain then DrainDequeue else if w.job.open then LoadDraining else Leaving(ViaClosedQueue))
  }

  function Settle(s: State, ok: bool): State {
    s.(w := s.w.(pc := AfterArray(s.w), job := s.w.job.(batch := [], tried := false)),
       h := s.h.(settled := s.h.settled + 
         [Outcome(s.w.job.batch, ok, s.w.job.calls, s.w.job.drainCalls, s.w.job.retries + if ok then 0 else 1)]))
  }

  /** The loads and stores of PublishArray and onError. */
  function MoveArray(s: State, a: ArrayPc): State {
    match a
    case LoadMode => s.(w := s.w.(pc := Array(Sending), job := s.w.job.(forced := s.f.draining)))
    case LoadOnError => At(s, Array(if s.f.draining then LoadRetry else StoreOnError))
    case StoreOnError => s.(f := s.f.(connected := false), w := s.w.(pc := Array(LoadRetry)))
    case LoadRetry =>
      if !s.f.draining then At(s, Array(LoadMode))
      else if s.w.job.retries + 1 >= MaxDrainRetries then Settle(s, false)
      else s.(w := s.w.(pc := Array(LoadMode), job := s.w.job.(retries := s.w.job.retries + 1)))
    case _ => s
  }

  function DoMove(s: State): State {
    match s.w.pc
    case Loop(l) => MoveLoop(s, l)
    case Publishing(p) => MovePublish(s, p)
    case Array(a) => MoveArray(s, a)
  }

  function DoPing(s: State, ok: bool): State {
    if s.w.pc != Loop(Pinging) then s else s.(w := s.w.(pc := Loop(if ok then StoreUp else StoreDown), handler := true))
  }

  function DoDequeue(s: State, n: nat): State {
    if s.w.pc != Publishing(TryDequeue) && s.w.pc != Publishing(DrainDequeue) then s
    else if s.q.items == [] then
      At(s, Publishing(if s.w.pc.p.DrainDequeue? then Leaving(ViaDrain)
                       else if s.q.sealed then Leaving(ViaClosedQueue) else LoadDraining))
    else if 1 <= n <= |s.q.items| then
      s.(q := s.q.(items := s.q.items[n..]),
         w := Worker(Array(LoadMode), Job(s.q.items[..n], false, 0, 0, 0, false, s.w.pc.p.DrainDequeue?, !s.q.sealed), s.w.handler))
    else s
  }

  function DoSend(s: State): State {
    if s.w.pc != Array(Sending) || s.w.job.batch == [] then s
    else s.(w := s.w.(pc := Array(Awaiting), job := s.w.job.(tried := true, calls := s.w.job.calls + 1,
                                                           drainCalls := s.w.job.drainCalls + if s.w.job.forced then 1 else 0)),
            h := s.h.(attempts := s.h.attempts + [Attempt(|s.h.settled|, s.w.job.batch, s.w.job.forced)]))
  }

  function DoAnswer(s: State, ok: bool): State {
    if s.w.pc != Array(Awaiting) then s else if ok then Settle(s, true) else At(s, Array(LoadOnError))
  }

  function DoEnqueue(s: State, id: nat): State {
    if id !in s.calls then s
    else if s.q.sealed then s.(calls := s.calls - {id})
    else s.(calls := s.calls - {id}, q := s.q.(items := s.q.items + [s.calls[id]]),
            h := s.h.(accepted := s.h.accepted + [s.calls[id]]))
  }

  /** Close: store draining, store connected, wait for the WaitGroup, close the queue, stop the handler.
      Any number of Close calls may run; each step only needs some call to have made the one before it. */
  function DoClose(s: State, e: Event): State {
    match e
    case CloseDraining => s.(f := s.f.(draining := true))
    case CloseConnected => if s.f.draining then s.(f := s.f.(connected := false, disconnected := true)) else s
    case CloseWait => if s.f.disconnected && !Registered(s.w.pc) then s.(f := s.f.(passed := true)) else s
    case CloseQueue => if s.f.passed then s.(q := s.q.(sealed := true)) else s
    case CloseStop => if s.q.sealed then s.(f := s.f.(stopped := true)) else s
    case _ => s
  }

  function Step(s: State, e: Event): State {
    match e
    case PublishCheck(id, m) => if id in s.calls || s.f.draining then s else s.(calls := s.calls[id := m])
    case PublishEnqueue(id) => DoEnqueue(s, id)
    case PublishFull(id) => s.(calls := s.calls - {id})
    case Ping(ok) => DoPing(s, ok)
    case Move => DoMove(s)
    case Dequeue(n) => DoDequeue(s, n)
    case Send => DoSend(s)
    case Answer(ok) => DoAnswer(s, ok)
    case _ => DoClose(s, e)
  }

  function RunFrom(s: State, log: seq<Event>): State { M.RunFrom(Step, s, log) }

  function Run(log: seq<Event>): State { RunFrom(Init, log) }

  // ---- the invariant ----

  function Batches(settled: seq<Outcome>): (bs: seq<seq<Message>>)
    ensures |bs| == |settled|
    ensures forall i :: 0 <= i < |settled| ==> bs[i] == settled[i].batch
  {
    seq(|settled|, i requires 0 <= i < |settled| => settled[i].batch)
  }

  function Sent(attempts: seq<Attempt>): (bs: seq<seq<Message>>)
    ensures |bs| == |attempts|
    ensures forall i :: 0 <= i < |attempts| ==> bs[i] == attempts[i].batch
  {
    seq(|attempts|, i requires 0 <= i < |attempts| => attempts[i].batch)
  }

  function Flatten(bs: seq<seq<Message>>): seq<Message> {
    if bs == [] then [] else Flatten(bs[..|bs| - 1]) + bs[|bs| - 1]
  }

  lemma FlattenSnoc(bs: seq<seq<Message>>, b: seq<Message>)
    ensures Flatten(bs + [b]) == Flatten(bs) + b
  {
    assert (bs + [b])[..|bs|] == bs;
  }

  /** Conservation in FIFO order, and the attempts as the settled batches repeated. */
  ghost predicate DataInv(w: Worker, q: Queue, h: History) {
    && h.accepted == Flatten(Batches(h.settled)) + w.job.batch + q.items
    && C.Stutters(Sent(h.attempts), Batches(h.settled) + if w.job.tried then [w.job.batch] else [])
  }

  ghost predicate WorkerInv(w: Worker) {
    && (w.pc.Array? <==> w.job.batch != [])
    && (w.job.tried ==> w.pc.Array?)
    && (w.pc.Array? && !w.pc.a.LoadMode? && !w.pc.a.Sending? ==> w.job.tried)
    && (!w.pc.Loop? || w.pc.l.StoreUp? || w.pc.l.Adding? ==> w.handler)
    && (w.pc.Array? ==>
          && w.job.retries < MaxDrainRetries
          && w.job.calls >= w.job.retries + (if w.pc.a.LoadMode? || w.pc.a.Sending? then 0 else 1)
          && w.job.drainCalls <= w.job.retries + if w.job.forced && !w.pc.a.LoadMode? && !w.pc.a.Sending? then 1 else 0)
  }

  ghost predicate AllOk(settled: seq<Outcome>) {
    forall i :: 0 <= i < |settled| ==> settled[i].ok
  }

  ghost predicate FewDrainCalls(settled: seq<Outcome>) {
    forall i :: 0 <= i < |settled| ==> settled[i].drainCalls <= MaxDrainRetries
  }

  /** A batch is dropped on the third failure under draining and on no other occasion. */
  ghost predicate DroppedOnThird(settled: seq<Outcome>) {
    forall i :: 0 <= i < |settled| ==>
      var o := settled[i]; o.failures <= 3 && (o.ok <==> o.failures < 3) && o.calls >= o.failures + if o.ok then 1 else 0
  }

  ghost predicate FlagInv(q: Queue, f: Flags, w: Worker, h: History) {
    && (f.disconnected ==> f.draining) && (f.passed ==> f.disconnected) && (q.sealed ==> f.passed)
    && (!f.draining ==> AllOk(h.settled))
    && FewDrainCalls(h.settled) && DroppedOnThird(h.settled)
    // inside startPublish the link only goes down, so once read as down it is down
    && (w.pc == Publishing(LoadDrainingAgain) || w.pc == Publishing(Leaving(ViaDisconnect)) ==> !f.connected)
    && (w.pc == Publishing(DrainDequeue) || w.pc == Publishing(Leaving(ViaDrain)) ==> f.draining)
    && (w.pc.Array? && (w.job.forced || w.job.inDrain) ==> f.draining)
    && (w.pc.Array? && !w.job.open ==> q.sealed)
    && (w.pc == Publishing(Leaving(ViaClosedQueue)) ==> q.sealed)
  }

  ghost predicate Inv(s: State) {
    WorkerInv(s.w) && DataInv(s.w, s.q, s.h) && FlagInv(s.q, s.f, s.w, s.h)
  }

  lemma SettleKeepsInv(s: State, ok: bool)
    requires WorkerInv(s.w) && DataInv(s.w, s.q, s.h) && s.w.job.tried && s.w.pc.Array?
    ensures DataInv(Settle(s, ok).w, Settle(s, ok).q, Settle(s, ok).h)
  {
    var s' := Settle(s, ok);
    assert Batches(s'.h.settled) == Batches(s.h.settled) + [s.w.job.batch];
    FlattenSnoc(Batches(s.h.settled), s.w.job.batch);
    assert Batches(s'.h.settled) + [] == Batches(s'.h.settled);
  }

  lemma SendKeepsInv(s: State)
    requires Inv(s)
    ensures Inv(DoSend(s))
  {
    var s' := DoSend(s);
    if s' != s {
      assert Sent(s'.h.attempts) == Sent(s.h.attempts) + [s.w.job.batch];
      if s.w.job.tried {
        C.StutterAgain(Sent(s.h.attempts), Batches(s.h.settled) + [s.w.job.batch]);
      } else {
        assert Batches(s.h.settled) + [] == Batches(s.h.settled);
        C.StutterNext(Sent(s.h.attempts), Batches(s.h.settled), s.w.job.batch);
      }
    }
  }

  lemma DequeueKeepsInv(s: State, n: nat)
    requires Inv(s)
    ensures Inv(DoDequeue(s, n))
  {
    var s' := DoDequeue(s, n);
    if s'.w.pc.Array? && !s.w.pc.Array? {
      var done := Flatten(Batches(s.h.settled));
      assert s.w.job.batch == [] && s.q.items == s'.w.job.batch + s'.q.items;
      assert done + s.w.job.batch + s.q.items == done + s'.w.job.batch + s'.q.items;
    }
  }

  lemma AnswerKeepsInv(s: State, ok: bool)
    requires Inv(s)
    ensures Inv(DoAnswer(s, ok))
  {
    if s.w.pc == Array(Awaiting) && ok { SettleKeepsInv(s, true); }
  }

  lemma MoveArrayKeepsInv(s: State, a: ArrayPc)
    requires Inv(s) && s.w.pc == Array(a)
    ensures Inv(MoveArray(s, a))
  {
    if a.LoadRetry? && s.f.draining && s.w.job.retries + 1 >= MaxDrainRetries {
      SettleKeepsInv(s, false);
    }
  }

  lemma MovePublishKeepsInv(s: State, p: PublishPc)
    requires Inv(s) && s.w.pc == Publishing(p)
    ensures Inv(MovePublish(s, p))
  {}

  lemma MoveLoopKeepsInv(s: State, l: LoopPc)
    requires Inv(s) && s.w.pc == Loop(l)
    ensures Inv(MoveLoop(s, l))
  {}

  lemma EnqueueKeepsInv(s: State, id: nat)
    requires Inv(s)
    ensures Inv(DoEnqueue(s, id))
  {}

  lemma CloseKeepsInv(s: State, e: Event)
    requires Inv(s)
    ensures Inv(DoClose(s, e))
  {}

  lemma StepKeepsInv(s: State, e: Event)
    requires Inv(s)
    ensures Inv(Step(s, e))
  {
    match e
    case PublishEnqueue(id) => EnqueueKeepsInv(s, id);
    case Move =>
      match s.w.pc {
        case Loop(l) => MoveLoopKeepsInv(s, l);
        case Publishing(p) => MovePublishKeepsInv(s, p);
        case Array(a) => MoveArrayKeepsInv(s, a);
      }
    case Dequeue(n) => DequeueKeepsInv(s, n);
    case Send => SendKeepsInv(s);
    case Answer(ok) => AnswerKeepsInv(s, ok);
    case PublishCheck(_, _) =>
    case PublishFull(_) =>
    case Ping(_) =>
    case _ => CloseKeepsInv(s, e);
  }

  lemma {:induction false} RunFromKeepsInv(s: State, log: seq<Event>)
    requires Inv(s)
    ensures Inv(RunFrom(s, log))
    decreases |log|
  {
    if log != [] {
      StepKeepsInv(s, log[0]);
      RunFromKeepsInv(Step(s, log[0]), log[1..]);
    }
  }

  /** Every reachable state satisfies the invariant. */
  lemma RunInv(log: seq<Event>)
    ensures Inv(Run(log))
  {
    assert Batches([]) == [] && Sent([]) == [];
    RunFromKeepsInv(Init, log);
  }
}
