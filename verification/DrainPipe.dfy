/** The retrying drain pipe shared by the MQTT, NATS core, JetStream, RabbitMQ and
    RocketMQ publishers, as a machine whose steps are the atomic actions of the Go
    goroutines: every load or store of an atomic, every queue operation and every SDK
    call is a step of its own.  A run is any sequence of events; an event whose
    goroutine is not at that point leaves the state alone, so quantifying over event
    sequences quantifies over every interleaving. */
module DrainPipe {
  import C = Channel
  import M = Machine

  datatype Message = Message(topic: string, payload: string)

  /** Which client the worker belongs to: the five differ in their exit policies. */
  datatype Policy = Mqtt | NatsCore | JetStream | Rabbit | Rocket {
    predicate Nats() { NatsCore? || JetStream? }
    /** MQTT and NATS refuse new messages once draining is set; the others rely on the sealed queue. */
    predicate ChecksDraining() { Mqtt? || Nats() }
  }

  /** Answer of a send.  Refused stands for the NATS errors "connection closed" and "connection draining". */
  datatype Reply = Ok | Failed | Refused

  /** Where the worker stands; each point names its next atomic action. */
  datatype Pc =
    | Dequeuing            // blocked in or about to call DequeueTo
    | LoadCtxFirst         // NATS: context check at the head of the retry loop
    | LoadLink             // MQTT, NATS: is the link up?
    | LoadMode             // RocketMQ: draining decides between drainPublish and publish
    | Sending              // about to call the SDK
    | Awaiting             // the SDK call is out
    | LoadDrainingOnError(refused: bool)  // NATS: draining after a failed send
    | LoadCtx              // MQTT, RocketMQ: context check after a failure
    | LoadDraining         // draining check that may give up
    | LoadLinkAgain        // MQTT, NATS: link check that may give up
    | Exited

  /** Progress of the one Close call whose swap of `draining` found false. */
  datatype Closing = NotCalled | Swapped | Waiting | Leaving(drained: bool) | TornDown(drained: bool) | Finished(drained: bool)

  /** `late`: the SDK client was already disconnected.  `forced`: RocketMQ's drainPublish was used. */
  datatype Attempt = Attempt(msg: Message, late: bool, forced: bool)

  /** The queue contract the callers rely on: a FIFO with a closed flag. */
  datatype Queue = Queue(items: seq<Message>, sealed: bool)

  /** Atomics, context and SDK client. */
  datatype Flags = Flags(draining: bool, connected: bool, ctxDone: bool, torn: bool)

  /** The worker: position, undelivered rest of its buffer, whether the head of that rest was
      attempted, the link value it read last and the send mode it chose last. */
  datatype Worker = Worker(pc: Pc, batch: seq<Message>, tried: bool, linkSeen: bool, forced: bool)

  datatype History = History(accepted: seq<Message>, delivered: seq<Message>, attempts: seq<Attempt>)

  /** `calls` are the Publish calls past the draining check; `close` is the winning Close call. */
  datatype State = State(q: Queue, f: Flags, calls: map<nat, Message>, close: Closing, w: Worker, h: History)

  datatype Event =
    | PublishCheck(id: nat, msg: Message)   // Publish: load draining
    | PublishEnqueue(id: nat)               // Publish: Enqueue answers
    | PublishFull(id: nat)                  // Publish: Enqueue answers false for lack of room
    | CloseCall                             // Close: swap draining
    | CloseNext                             // Close: its next unconditional step
    | CloseDrained                          // Close: the worker's WaitGroup is zero
    | CloseTimeout                          // Close: 20 s are over
    | SealOnCancel                          // RabbitMQ: Start seals the queue once its context is done
    | CtxCancel                             // the parent context is cancelled
    | LinkUp | LinkDown                     // SDK callbacks
    | Dequeue(count: nat)                   // worker: DequeueTo returns
    | Load                                  // worker: the load its position names
    | Send                                  // worker: the SDK call starts
    | Answer(reply: Reply)                  // worker: the SDK call returns

  predicate IsWork(e: Event) { e.Dequeue? || e.Load? || e.Send? || e.Answer? }

  const Init := State(Queue([], false), Flags(false, false, false, false), map[], NotCalled,
                      Worker(Dequeuing, [], false, false, false), History([], [], []))

  // ---- control flow of the five workers ----

  /** First action of the retry loop body. */
  function Head(p: Policy): Pc {
    match p
    case Mqtt => LoadLink
    case NatsCore => LoadCtxFirst
    case JetStream => LoadCtxFirst
    case Rabbit => Sending
    case Rocket => LoadMode
  }

  function AfterFailure(p: Policy, r: Reply): Pc {
    match p
    case Mqtt => LoadCtx
    case NatsCore => LoadDrainingOnError(r.Refused?)
    case JetStream => LoadDrainingOnError(r.Refused?)
    case Rabbit => LoadDraining
    case Rocket => LoadCtx
  }

  /** Value the load at `s.w.pc` returns. */
  function Loaded(s: State): bool {
    match s.w.pc
    case LoadCtxFirst => s.f.ctxDone
    case LoadCtx => s.f.ctxDone
    case LoadLink => s.f.connected
    case LoadLinkAgain => s.f.connected
    case _ => s.f.draining
  }

  function AfterLoad(p: Policy, pc: Pc, v: bool): Pc {
    match pc
    case LoadCtxFirst => if v then Exited else LoadLink
    case LoadLink => if v then Sending else if p.Mqtt? then LoadCtx else LoadDraining
    case LoadMode => Sending
    case LoadDrainingOnError(refused) => if v && refused then Exited else LoadDraining
    case LoadCtx => if !v then LoadDraining else if p.Mqtt? then LoadLinkAgain else Exited
    case LoadDraining => if !v then Head(p) else if p.Mqtt? || p.Nats() then LoadLinkAgain else Exited
    case LoadLinkAgain => if v then Head(p) else Exited
    case _ => pc
  }

  predicate IsLoad(pc: Pc) {
    pc.LoadCtxFirst? || pc.LoadLink? || pc.LoadMode? || pc.LoadDrainingOnError? || pc.LoadCtx? || pc.LoadDraining? || pc.LoadLinkAgain?
  }

  // ---- steps ----

  function DoDequeue(p: Policy, s: State, n: nat): State {
    if !s.w.pc.Dequeuing? then s
    else if s.q.items == [] then (if s.q.sealed then s.(w := s.w.(pc := Exited)) else s)
    else if 1 <= n <= |s.q.items| then
      s.(q := s.q.(items := s.q.items[n..]), w := s.w.(pc := Head(p), batch := s.q.items[..n], tried := false))
    else s
  }

  function DoLoad(p: Policy, s: State): State {
    if !IsLoad(s.w.pc) then s
    else s.(w := Worker(AfterLoad(p, s.w.pc, Loaded(s)), s.w.batch, s.w.tried,
                        if s.w.pc.LoadLink? || s.w.pc.LoadLinkAgain? then s.f.connected else s.w.linkSeen,
                        if s.w.pc.LoadMode? then s.f.draining else s.w.forced))
  }

  function DoSend(s: State): State {
    if !s.w.pc.Sending? || s.w.batch == [] then s
    else s.(w := s.w.(pc := Awaiting, tried := true),
            h := s.h.(attempts := s.h.attempts + [Attempt(s.w.batch[0], s.f.torn, s.w.forced)]))
  }

  function DoAnswer(p: Policy, s: State, r: Reply): State {
    if !s.w.pc.Awaiting? || s.w.batch == [] then s
    else if r.Ok? then
      s.(w := s.w.(pc := if |s.w.batch| == 1 then Dequeuing else Head(p), batch := s.w.batch[1..], tried := false),
         h := s.h.(delivered := s.h.delivered + [s.w.batch[0]]))
    else s.(w := s.w.(pc := AfterFailure(p, r)))
  }

  function DoEnqueue(s: State, id: nat): State {
    if id !in s.calls then s
    else if s.q.sealed then s.(calls := s.calls - {id})
    else s.(calls := s.calls - {id}, q := s.q.(items := s.q.items + [s.calls[id]]),
            h := s.h.(accepted := s.h.accepted + [s.calls[id]]))
  }

  /** Close after its swap: seal the queue (RabbitMQ cancels the context and lets Start seal it),
      wait, tear the client down, cancel the context. */
  function DoClose(p: Policy, s: State): State {
    match s.close
    case Swapped =>
      if p.Rabbit? then s.(f := s.f.(ctxDone := true), close := Waiting)
      else s.(q := s.q.(sealed := true), close := Waiting)
    case Leaving(d) => s.(f := s.f.(torn := true), close := TornDown(d))
    case TornDown(d) => s.(f := s.f.(ctxDone := true), close := Finished(d))
    case _ => s
  }

  function Step(p: Policy, s: State, e: Event): State {
    match e
    case PublishCheck(id, m) =>
      if id in s.calls || (p.ChecksDraining() && s.f.draining) then s else s.(calls := s.calls[id := m])
    case PublishEnqueue(id) => DoEnqueue(s, id)
    case PublishFull(id) => s.(calls := s.calls - {id})
    case CloseCall => if s.f.draining then s else s.(f := s.f.(draining := true), close := Swapped)
    case CloseNext => DoClose(p, s)
    case CloseDrained => if s.close.Waiting? && s.w.pc.Exited? then s.(close := Leaving(true)) else s
    case CloseTimeout => if s.close.Waiting? then s.(close := Leaving(false)) else s
    case SealOnCancel => if p.Rabbit? && s.f.ctxDone then s.(q := s.q.(sealed := true)) else s
    case CtxCancel => s.(f := s.f.(ctxDone := true))
    case LinkUp => s.(f := s.f.(connected := true))
    case LinkDown => s.(f := s.f.(connected := false))
    case Dequeue(n) => DoDequeue(p, s, n)
    case Load => DoLoad(p, s)
    case Send => DoSend(s)
    case Answer(r) => DoAnswer(p, s, r)
  }

  /** The machine of one policy. */
  function Stepper(p: Policy): (State, Event) -> State { (s, e) => Step(p, s, e) }

  function RunFrom(p: Policy, s: State, log: seq<Event>): State { M.RunFrom(Stepper(p), s, log) }

  function Run(p: Policy, log: seq<Event>): State { RunFrom(p, Init, log) }

  // ---- the invariant ----

  predicate DrainedClose(c: Closing) { (c.Leaving? || c.TornDown? || c.Finished?) && c.drained }
  predicate PastTeardown(c: Closing) { c.TornDown? || c.Finished? }

  /** Worker data: its position, buffer and the link it read last. */
  ghost predicate WorkerInv(p: Policy, s: State) {
    && (s.w.pc.Dequeuing? ==> s.w.batch == [] && !s.w.tried)
    && (s.w.batch == [] ==> s.w.pc.Dequeuing? || s.w.pc.Exited?)
    && (s.w.pc.Awaiting? ==> s.w.tried)
    && (s.w.tried ==> s.w.batch != [])
    && (s.w.pc.Exited? && s.w.batch == [] ==> s.q.sealed && s.q.items == [])
  }

  /** Which positions each worker can be in. */
  predicate Reachable(p: Policy, pc: Pc) {
    match p
    case Mqtt => pc.Dequeuing? || pc.LoadLink? || pc.Sending? || pc.Awaiting? || pc.LoadCtx? || pc.LoadDraining? || pc.LoadLinkAgain? || pc.Exited?
    case Rabbit => pc.Dequeuing? || pc.Sending? || pc.Awaiting? || pc.LoadDraining? || pc.Exited?
    case Rocket => pc.Dequeuing? || pc.LoadMode? || pc.Sending? || pc.Awaiting? || pc.LoadCtx? || pc.LoadDraining? || pc.Exited?
    case _ => !pc.LoadMode? && !pc.LoadCtx?
  }

  /** Why a worker may leave undelivered messages behind. */
  ghost predicate MayAbandon(p: Policy, s: State) {
    match p
    case Mqtt => (s.f.draining || s.f.ctxDone) && !s.w.linkSeen
    case Rabbit => s.f.draining
    case _ => s.f.draining || s.f.ctxDone
  }

  ghost predicate ReasonInv(p: Policy, s: State) {
    && Reachable(p, s.w.pc)
    && (s.w.pc.LoadLinkAgain? ==> s.f.draining || s.f.ctxDone)
    && (s.w.pc.Exited? && s.w.batch != [] ==> MayAbandon(p, s))
  }

  ghost predicate NoneLate(attempts: seq<Attempt>) {
    forall i :: 0 <= i < |attempts| ==> !attempts[i].late
  }

  ghost predicate CloseInv(p: Policy, s: State) {
    && (s.f.draining <==> !s.close.NotCalled?)
    && (s.f.torn <==> PastTeardown(s.close))
    && (DrainedClose(s.close) ==> s.w.pc.Exited?)
    && (s.q.sealed ==> if p.Rabbit? then s.f.ctxDone else s.f.draining && !s.close.Swapped?)
    && (!p.Rabbit? && s.f.draining && !s.close.Swapped? ==> s.q.sealed)
    && (!s.f.torn || DrainedClose(s.close) ==> NoneLate(s.h.attempts))
  }

  /** The worker's data seen as the one-slot channel: batch and queue together are the backlog. */
  function Abs(s: State): C.Chan<Message> {
    C.Chan(s.h.accepted, s.w.batch + s.q.items, s.w.tried, Sent(s.h.attempts), s.h.delivered)
  }

  function Sent(attempts: seq<Attempt>): (sent: seq<Message>)
    ensures |sent| == |attempts|
    ensures forall i :: 0 <= i < |attempts| ==> sent[i] == attempts[i].msg
  {
    seq(|attempts|, i requires 0 <= i < |attempts| => attempts[i].msg)
  }

  ghost predicate Inv(p: Policy, s: State) {
    WorkerInv(p, s) && ReasonInv(p, s) && CloseInv(p, s)
  }

  lemma {:induction false} LoadKeepsInv(p: Policy, s: State)
    requires Inv(p, s)
    ensures Inv(p, DoLoad(p, s))
  {}

  lemma {:induction false} DequeueKeepsInv(p: Policy, s: State, n: nat)
    requires Inv(p, s)
    ensures Inv(p, DoDequeue(p, s, n))
  {}

  lemma {:induction false} SendKeepsInv(p: Policy, s: State)
    requires Inv(p, s)
    ensures Inv(p, DoSend(s))
  {}

  lemma {:induction false} AnswerKeepsInv(p: Policy, s: State, r: Reply)
    requires Inv(p, s)
    ensures Inv(p, DoAnswer(p, s, r))
  {}

  lemma {:induction false} CloseKeepsInv(p: Policy, s: State)
    requires Inv(p, s)
    ensures Inv(p, DoClose(p, s))
  {}

  lemma {:induction false} EnqueueKeepsInv(p: Policy, s: State, id: nat)
    requires Inv(p, s)
    ensures Inv(p, DoEnqueue(s, id))
  {}

  lemma {:induction false} StepKeepsInv(p: Policy, s: State, e: Event)
    requires Inv(p, s)
    ensures Inv(p, Step(p, s, e))
  {
    match e
    case Dequeue(n) => DequeueKeepsInv(p, s, n);
    case Load => LoadKeepsInv(p, s);
    case Send => SendKeepsInv(p, s);
    case Answer(r) => AnswerKeepsInv(p, s, r);
    case CloseNext => CloseKeepsInv(p, s);
    case PublishEnqueue(id) => EnqueueKeepsInv(p, s, id);
    case _ =>
  }

  lemma {:induction false} SendRefines(s: State)
    ensures C.Next(Abs(s), Abs(DoSend(s)))
  {
    var c, c' := Abs(s), Abs(DoSend(s));
    if s.w.pc.Sending? && s.w.batch != [] {
      assert c'.wire == c.wire + [s.w.batch[0]];
      assert C.Attempts(c, c');
    }
  }

  lemma {:induction false} AnswerRefines(p: Policy, s: State, r: Reply)
    requires WorkerInv(p, s)
    ensures C.Next(Abs(s), Abs(DoAnswer(p, s, r)))
  {
    var c, c' := Abs(s), Abs(DoAnswer(p, s, r));
    if s.w.pc.Awaiting? && r.Ok? {
      assert c'.backlog == c.backlog[1..];
      assert C.Confirms(c, c');
    }
  }

  lemma {:induction false} EnqueueRefines(s: State, id: nat)
    ensures C.Next(Abs(s), Abs(DoEnqueue(s, id)))
  {
    var c, c' := Abs(s), Abs(DoEnqueue(s, id));
    if id in s.calls && !s.q.sealed {
      var m := s.calls[id];
      assert c'.backlog == c.backlog + [m];
      assert c' == c.(accepted := c.accepted + [m], backlog := c.backlog + [m]);
      assert C.Accepts(c, c');
    }
  }

  lemma {:induction false} DequeueRefines(p: Policy, s: State, n: nat)
    requires WorkerInv(p, s)
    ensures Abs(DoDequeue(p, s, n)) == Abs(s)
  {
    assert Abs(DoDequeue(p, s, n)).backlog == Abs(s).backlog;
  }

  /** Refinement: every step of every pipe is a step of the one-slot channel or leaves it alone. */
  lemma {:induction false} StepRefines(p: Policy, s: State, e: Event)
    requires WorkerInv(p, s)
    ensures C.Next(Abs(s), Abs(Step(p, s, e)))
  {
    match e
    case Dequeue(n) => DequeueRefines(p, s, n);
    case Send => SendRefines(s);
    case Answer(r) => AnswerRefines(p, s, r);
    case PublishEnqueue(id) => EnqueueRefines(s, id);
    case _ => assert Abs(Step(p, s, e)) == Abs(s);
  }

  ghost predicate Good(p: Policy, s: State) { Inv(p, s) && C.Sound(Abs(s)) }

  lemma {:induction false} RunFromKeepsGood(p: Policy, s: State, log: seq<Event>)
    requires Good(p, s)
    ensures Good(p, RunFrom(p, s, log))
    decreases |log|
  {
    if log != [] {
      var s' := Step(p, s, log[0]);
      StepKeepsInv(p, s, log[0]);
      StepRefines(p, s, log[0]);
      C.NextKeepsSound(Abs(s), Abs(s'));
      RunFromKeepsGood(p, s', log[1..]);
    }
  }

  /** Every reachable state is good. */
  lemma RunIsGood(p: Policy, log: seq<Event>)
    ensures Good(p, Run(p, log))
  {
    assert Sent([]) == [];
    RunFromKeepsGood(p, Init, log);
  }
}
