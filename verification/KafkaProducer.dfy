/** The Kafka producer: the no-drop variant of the pipe.  Start runs a sender, a reader of sarama's
    status channels and a waiting main part; Close cancels, seals the queue, waits for Start and
    only then closes the sarama producer. */
module KafkaProducer {
  import M = Machine

  datatype Message = Message(topic: string, key: string, value: string)

  datatype SenderPc = Dequeuing | Feeding | Cancelling | Gone

  /** Main part of Start: waits for its context, then for both goroutines, then returns. */
  datatype MainPc = AwaitContext | AwaitWorkers | Returned

  datatype Queue = Queue(items: seq<Message>, sealed: bool)

  /** `passed`: a Close call is past wg.Wait; `closed`: Producer.Close was called. */
  datatype Flags = Flags(ctxDone: bool, subDone: bool, passed: bool, closed: bool)

  /** `reader`: the goroutine on the status channels is alive. */
  datatype Threads = Threads(sender: SenderPc, batch: seq<Message>, reader: bool, main: MainPc)

  /** `input`: what was put on sarama's Input channel; `late`: something was put there after Producer.Close. */
  datatype History = History(accepted: seq<Message>, input: seq<Message>, late: bool)

  datatype State = State(q: Queue, f: Flags, t: Threads, h: History)

  datatype Event =
    | Publish(msg: Message)                       // Enqueue
    | PublishArray(msgs: seq<Message>, room: nat) // EnqueueBatch: takes what fits
    | Cancel                                      // Close's first step, or the parent context
    | CloseQueue | CloseWait | CloseProducer
    | Dequeue(n: nat) | Feed | CancelSub          // sender
    | ReadStatus                                  // reader: select
    | MainNext

  const Init := State(Queue([], false), Flags(false, false, false, false),
                      Threads(Dequeuing, [], true, AwaitContext), History([], [], false))

  function DoEnqueue(s: State, msgs: seq<Message>): State {
    if s.q.sealed then s
    else s.(q := s.q.(items := s.q.items + msgs), h := s.h.(accepted := s.h.accepted + msgs))
  }

  function DoDequeue(s: State, n: nat): State {
    if !s.t.sender.Dequeuing? then s
    else if s.q.items == [] then (if s.q.sealed then s.(t := s.t.(sender := Cancelling)) else s)
    else if 1 <= n <= |s.q.items| then
      s.(q := s.q.(items := s.q.items[n..]), t := s.t.(sender := Feeding, batch := s.q.items[..n]))
    else s
  }

  /** Input <- msg. */
  function DoFeed(s: State): State {
    if !s.t.sender.Feeding? || s.t.batch == [] then s
    else s.(t := s.t.(batch := s.t.batch[1..], sender := if |s.t.batch| == 1 then Dequeuing else Feeding),
            h := s.h.(input := s.h.input + [s.t.batch[0]], late := s.h.late || s.f.closed))
  }

  function DoClose(s: State, e: Event): State {
    match e
    case Cancel => s.(f := s.f.(ctxDone := true))
    case CloseQueue => if s.f.ctxDone then s.(q := s.q.(sealed := true)) else s
    case CloseWait => if s.q.sealed && s.t.main.Returned? then s.(f := s.f.(passed := true)) else s
    case CloseProducer => if s.f.passed then s.(f := s.f.(closed := true)) else s
    case _ => s
  }

  function DoMain(s: State): State {
    match s.t.main
    case AwaitContext => if s.f.ctxDone then s.(t := s.t.(main := AwaitWorkers)) else s
    case AwaitWorkers => if s.t.sender.Gone? && !s.t.reader then s.(t := s.t.(main := Returned)) else s
    case Returned => s
  }

  function Step(s: State, e: Event): State {
    match e
    case Publish(m) => DoEnqueue(s, [m])
    case PublishArray(ms, room) => DoEnqueue(s, if |ms| <= room then ms else ms[..room])
    case Dequeue(n) => DoDequeue(s, n)
    case Feed => DoFeed(s)
    case CancelSub => if s.t.sender.Cancelling? then s.(f := s.f.(subDone := true), t := s.t.(sender := Gone)) else s
    // the reader leaves when its context is done or sarama has closed its channels
    case ReadStatus => if s.f.subDone || s.f.closed then s.(t := s.t.(reader := false)) else s
    case MainNext => DoMain(s)
    case _ => DoClose(s, e)
  }

  function RunFrom(s: State, log: seq<Event>): State { M.RunFrom(Step, s, log) }

  function Run(log: seq<Event>): State { RunFrom(Init, log) }

  ghost predicate Inv(s: State) {
    && s.h.accepted == s.h.input + s.t.batch + s.q.items
    && (s.t.sender.Feeding? <==> s.t.batch != [])
    && (s.t.sender.Cancelling? || s.t.sender.Gone? ==> s.q.sealed && s.q.items == [])
    && (s.f.subDone <==> s.t.sender.Gone?)
    && (!s.t.reader ==> s.f.subDone)
    && (s.t.main.Returned? ==> s.t.sender.Gone? && !s.t.reader)
    && (s.f.passed ==> s.t.main.Returned?)
    && (s.f.closed ==> s.f.passed)
    && !s.h.late
  }

  lemma FeedKeepsInv(s: State)
    requires Inv(s)
    ensures Inv(DoFeed(s))
  {}

  lemma DequeueKeepsInv(s: State, n: nat)
    requires Inv(s)
    ensures Inv(DoDequeue(s, n))
  {}

  lemma StepKeepsInv(s: State, e: Event)
    requires Inv(s)
    ensures Inv(Step(s, e))
  {
    match e
    case Feed => FeedKeepsInv(s);
    case Dequeue(n) => DequeueKeepsInv(s, n);
    case Publish(m) => assert s.h.accepted + [m] == s.h.input + s.t.batch + (s.q.items + [m]);
    case PublishArray(ms, room) =>
      var taken := if |ms| <= room then ms else ms[..room];
      assert s.h.accepted + taken == s.h.input + s.t.batch + (s.q.items + taken);
    case _ =>
  }

  lemma {:induction false} RunFromKeepsInv(s: State, log: seq<Event>)
    requires Inv(s)
    ensures Inv(RunFrom(s, log))
    decreases |log|
  {
    if log != [] {
      StepKeepsInv(s, log[0]);
      RunFromKeepsInv(Step(s, log[0]), log[1..]);
    }
  }

  lemma RunInv(log: seq<Event>)
    ensures Inv(Run(log))
  {
    RunFromKeepsInv(Init, log);
  }

  /** Exactly once and in order: at any time the Input channel has seen a prefix of the accepted
      messages, the rest being in the sender's buffer and in the queue; Input is never used after
      Producer.Close; and the status reader lives as long as the sender does. */
  lemma HandsOverInOrder(log: seq<Event>)
    ensures var s := Run(log);
      && s.h.accepted == s.h.input + s.t.batch + s.q.items
      && !s.h.late
      && (!s.t.sender.Gone? ==> s.t.reader)
  {
    RunInv(log);
  }

  lemma GoneStep(s: State, e: Event)
    requires Inv(s) && s.t.sender.Gone?
    ensures var t := Step(s, e); t.t.sender.Gone? && t.h.accepted == s.h.accepted && t.h.input == s.h.input
  {}

  lemma {:induction false} GoneStays(s: State, log: seq<Event>)
    requires Inv(s) && s.t.sender.Gone?
    ensures var t := RunFrom(s, log); t.h.accepted == s.h.accepted && t.h.input == s.h.input
    decreases |log|
  {
    if log != [] {
      StepKeepsInv(s, log[0]);
      GoneStep(s, log[0]);
      GoneStays(Step(s, log[0]), log[1..]);
    }
  }

  /** When Producer.Close is called everything ever accepted has been handed over, and nothing is
      accepted or handed over afterwards. */
  lemma NothingIsMissingAtProducerClose(log: seq<Event>, more: seq<Event>)
    requires Run(log).f.closed
    ensures var s, t := Run(log), Run(log + more); t.h.input == t.h.accepted == s.h.accepted == s.h.input
  {
    RunInv(log);
    var s := Run(log);
    assert s.h.input + [] + [] == s.h.input;
    M.RunFromAppend(Step, Init, log, more);
    GoneStays(s, more);
  }

  /** Moves left to the sender, the reader and Start's main part once the queue is sealed. */
  function Work(s: State): nat {
    3 * |s.q.items| + |s.t.batch| +
    (match s.t.sender case Dequeuing => 2 case Feeding => 3 case Cancelling => 1 case Gone => 0) +
    (if s.t.reader then 1 else 0) +
    (match s.t.main case AwaitContext => 2 case AwaitWorkers => 1 case Returned => 0)
  }

  predicate Counts(e: Event) { e.Dequeue? || e.Feed? || e.CancelSub? || e.ReadStatus? || e.MainNext? }

  /** Once Close has sealed the queue every effective move of Start's goroutines brings Start nearer to
      its return, and until it has returned one of them can move (Input permitting). */
  lemma SealedStartReturns(s: State, e: Event)
    requires Inv(s) && s.q.sealed && s.f.ctxDone
    ensures Step(s, e).q.sealed && Step(s, e).f.ctxDone
    ensures Work(Step(s, e)) <= Work(s)
    ensures Counts(e) && Step(s, e) != s ==> Work(Step(s, e)) < Work(s)
    ensures !s.t.main.Returned? ==> Counts(NextMove(s)) && Step(s, NextMove(s)) != s
  {
    SealedStep(s, e);
    if !s.t.main.Returned? {
      match s.t.sender
      case Dequeuing =>
      case Feeding =>
      case Cancelling =>
      case Gone =>
    }
  }

  lemma SealedStep(s: State, e: Event)
    requires Inv(s) && s.q.sealed && s.f.ctxDone
    ensures Step(s, e).q.sealed && Step(s, e).f.ctxDone
    ensures Work(Step(s, e)) <= Work(s)
    ensures Counts(e) && Step(s, e) != s ==> Work(Step(s, e)) < Work(s)
  {}

  function NextMove(s: State): Event {
    match s.t.sender
    case Dequeuing => Dequeue(|s.q.items|)
    case Feeding => Feed
    case Cancelling => CancelSub
    case Gone => if s.t.reader then ReadStatus else MainNext
  }

  function Moves(s: State, log: seq<Event>): nat
    decreases |log|
  {
    if log == [] then 0
    else (if Counts(log[0]) && Step(s, log[0]) != s then 1 else 0) + Moves(Step(s, log[0]), log[1..])
  }

  /** Termination of Start after Close: at most Work(s) moves. */
  lemma {:induction false} CloseTerminatesStart(s: State, log: seq<Event>)
    requires Inv(s) && s.q.sealed && s.f.ctxDone
    ensures var t := RunFrom(s, log);
      Moves(s, log) + Work(t) <= Work(s) && (t.t.main.Returned? || Step(t, NextMove(t)) != t)
    decreases |log|
  {
    if log == [] {
      SealedStartReturns(s, MainNext);
    } else {
      StepKeepsInv(s, log[0]);
      SealedStartReturns(s, log[0]);
      CloseTerminatesStart(Step(s, log[0]), log[1..]);
    }
  }

  // ---- PublishArray ----

  /** A batch is accepted as a whole if and only if it is empty, or the queue is open and has room for it. */
  lemma PublishArrayTakesAllIff(s: State, msgs: seq<Message>, room: nat)
    ensures Step(s, PublishArray(msgs, room)).h.accepted == s.h.accepted + msgs
            <==> msgs == [] || (!s.q.sealed && |msgs| <= room)
  {
    assert |s.h.accepted + msgs| == |s.h.accepted| + |msgs|;
  }

  /** With room for one of two messages the first is accepted and the second is not. */
  lemma PublishArrayCanSplit()
    ensures exists a, b :: Step(Init, PublishArray([a, b], 1)).h.accepted == [a] != [a, b]
  {
    var a, b := Message("t", "", "1"), Message("t", "", "2");
    assert Step(Init, PublishArray([a, b], 1)).h.accepted == [a];
  }
}
