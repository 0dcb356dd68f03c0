/** The Kafka producer's sender or status reader in the foreground: which event its next atomic step
    is, and where a schedule of everything else takes the producer. */
module ProducerTrace {
  import M = Machine
  import opened KafkaProducer

  /** Steps of the other goroutines before one atomic step of the foreground one. */
  type Turn = seq<Event>

  datatype Role = Sender | Reader

  predicate Mine(me: Role, e: Event) {
    match me
    case Sender => e.Dequeue? || e.Feed? || e.CancelSub?
    case Reader => e.ReadStatus?
  }

  function IsMine(me: Role): Event -> bool { e => Mine(me, e) }

  /** The foreground goroutine's next event.  A dequeue of an empty open queue is a Dequeue(0), which changes nothing. */
  function OwnEvent(me: Role, size: nat, s: State): Event {
    match me
    case Reader => ReadStatus
    case Sender =>
      match s.t.sender
      case Dequeuing => Dequeue(M.Min(|s.q.items|, size))
      case Feeding => Feed
      case _ => CancelSub
  }

  function Others(me: Role, s: State, turn: Turn): State { RunFrom(s, M.Theirs(IsMine(me), turn)) }

  function Turned(me: Role, size: nat, s: State, turn: Turn): State {
    var m := Others(me, s, turn);
    Step(m, OwnEvent(me, size, m))
  }

  function Advance(me: Role, size: nat): (State, Turn) -> State { (s, turn) => Turned(me, size, s, turn) }

  /** The producer after k atomic steps of its foreground goroutine. */
  function Trace(me: Role, size: nat, sched: nat -> Turn, k: nat): State { M.Trace(Advance(me, size), Init, sched, k) }

  /** `at` is the trace as a function of the number of steps. */
  ghost predicate Follows(at: nat -> State, me: Role, size: nat, sched: nat -> Turn) {
    forall k: nat {:trigger Trace(me, size, sched, k)} :: at(k) == Trace(me, size, sched, k)
  }

  lemma NextTurn(at: nat -> State, me: Role, size: nat, sched: nat -> Turn, k: nat)
    requires Follows(at, me, size, sched)
    ensures at(k + 1) == Turned(me, size, at(k), sched(k))
  {
    assert at(k) == Trace(me, size, sched, k) && at(k + 1) == Trace(me, size, sched, k + 1);
  }

  /** The foreground goroutine's own part of the state. */
  predicate Kept(me: Role, s: State, t: State) {
    match me
    case Sender => t.t.sender == s.t.sender && t.t.batch == s.t.batch && t.h.input == s.h.input
    case Reader => t.t.reader == s.t.reader
  }

  lemma OtherKeeps(me: Role, s: State, e: Event)
    requires !Mine(me, e)
    ensures Kept(me, s, Step(s, e))
  {}

  /** A trace is a run, so everything proved of runs holds along it. */
  lemma TraceIsRun(me: Role, size: nat, sched: nat -> Turn, k: nat) returns (log: seq<Event>)
    ensures Trace(me, size, sched, k) == Run(log)
  {
    var path := (s: State, turn: Turn) => M.Theirs(IsMine(me), turn) + [OwnEvent(me, size, Others(me, s, turn))];
    forall s, turn ensures Advance(me, size)(s, turn) == M.RunFrom(Step, s, path(s, turn)) {
      M.RunSnoc(Step, s, M.Theirs(IsMine(me), turn), OwnEvent(me, size, Others(me, s, turn)));
    }
    log := M.TraceIsRun(Step, Advance(me, size), path, Init, sched, k);
  }

  // ---- the sender ends in time once the queue is sealed ----

  ghost predicate Sealed(s: State) { Inv(s) && s.q.sealed }

  /** Steps of the sender until it is gone. */
  function SendsLeft(s: State): nat {
    2 * |s.q.items| + |s.t.batch| + match s.t.sender case Gone => 0 case Cancelling => 1 case _ => 2
  }

  lemma SealedOther(s: State, e: Event)
    requires Sealed(s)
    ensures Sealed(Step(s, e))
    ensures !Mine(Sender, e) ==> SendsLeft(Step(s, e)) == SendsLeft(s)
  {
    StepKeepsInv(s, e);
  }

  lemma {:induction false} SealedOthers(s: State, turn: Turn)
    requires Sealed(s)
    ensures var m := Others(Sender, s, turn); Sealed(m) && SendsLeft(m) == SendsLeft(s) && Kept(Sender, s, m)
    decreases |turn|
  {
    if turn != [] {
      var n := |turn| - 1;
      SealedOthers(s, turn[..n]);
      M.TheirsSnoc(Step, IsMine(Sender), s, turn, n);
      assert turn[..n + 1] == turn;
      var m := Others(Sender, s, turn[..n]);
      SealedOther(m, turn[n]);
      if !Mine(Sender, turn[n]) { OtherKeeps(Sender, m, turn[n]); }
    }
  }

  lemma SealedTurn(size: nat, s: State, turn: Turn)
    requires Sealed(s) && size > 0
    ensures var t := Turned(Sender, size, s, turn);
      Sealed(t) && if s.t.sender.Gone? then t.t.sender.Gone? else SendsLeft(t) < SendsLeft(s)
  {
    var m := Others(Sender, s, turn);
    SealedOthers(s, turn);
    SealedOther(m, OwnEvent(Sender, size, m));
  }

  /** Once the queue is sealed the sender is gone within SendsLeft of its steps. */
  lemma {:induction false} SenderEndsWithin(at: nat -> State, size: nat, sched: nat -> Turn, k: nat, n: nat)
    requires Follows(at, Sender, size, sched) && Sealed(at(k)) && size > 0
    requires SendsLeft(at(k)) <= n || at(k).t.sender.Gone?
    ensures at(k + n).t.sender.Gone?
    decreases n
  {
    if n > 0 {
      NextTurn(at, Sender, size, sched, k);
      SealedTurn(size, at(k), sched(k));
      SenderEndsWithin(at, size, sched, k + 1, n - 1);
    } else {
      assert !at(k).t.sender.Gone? ==> SendsLeft(at(k)) > 0;
    }
  }

  lemma TraceInv(at: nat -> State, me: Role, size: nat, sched: nat -> Turn, k: nat)
    requires Follows(at, me, size, sched)
    ensures Inv(at(k))
  {
    assert at(k) == Trace(me, size, sched, k);
    var log := TraceIsRun(me, size, sched, k);
    RunInv(log);
  }

  // ---- hand-over in time, sealed or not ----

  /** Own steps until `target` messages are on Input: one each for those in the buffer, at most two for those queued. */
  function StepsToHandOver(s: State, target: nat): nat {
    var held := |s.h.input| + |s.t.batch|;
    if |s.h.input| >= target then 0
    else if held >= target then target - |s.h.input|
    else |s.t.batch| + 2 * (target - held)
  }

  lemma HandOverGrows(s: State, e: Event)
    ensures s.h.accepted <= Step(s, e).h.accepted && |s.h.input| <= |Step(s, e).h.input|
    ensures !Mine(Sender, e) ==> Kept(Sender, s, Step(s, e))
  {}

  lemma {:induction false} OthersHandOverNothing(s: State, turn: Turn)
    requires Inv(s)
    ensures var m := Others(Sender, s, turn); Inv(m) && Kept(Sender, s, m) && s.h.accepted <= m.h.accepted
    decreases |turn|
  {
    if turn != [] {
      var n := |turn| - 1;
      OthersHandOverNothing(s, turn[..n]);
      M.TheirsSnoc(Step, IsMine(Sender), s, turn, n);
      assert turn[..n + 1] == turn;
      var m := Others(Sender, s, turn[..n]);
      StepKeepsInv(m, turn[n]);
      HandOverGrows(m, turn[n]);
    }
  }

  /** The sender's own step, whatever it finds. */
  lemma HandOverStep(size: nat, m: State, target: nat)
    requires Inv(m) && size > 0 && |m.h.input| < target <= |m.h.accepted|
    ensures StepsToHandOver(Step(m, OwnEvent(Sender, size, m)), target) < StepsToHandOver(m, target)
  {
    assert |m.h.accepted| == |m.h.input| + |m.t.batch| + |m.q.items|;
  }

  lemma {:induction false} HandsOverCount(at: nat -> State, size: nat, sched: nat -> Turn, k: nat, n: nat, target: nat)
    requires Follows(at, Sender, size, sched) && size > 0 && target <= |at(k).h.accepted|
    requires StepsToHandOver(at(k), target) <= n
    ensures |at(k + n).h.input| >= target && at(k).h.accepted <= at(k + n).h.accepted
    decreases n
  {
    if n > 0 {
      var m := Others(Sender, at(k), sched(k));
      TraceInv(at, Sender, size, sched, k);
      OthersHandOverNothing(at(k), sched(k));
      NextTurn(at, Sender, size, sched, k);
      HandOverGrows(m, OwnEvent(Sender, size, m));
      if |m.h.input| < target { HandOverStep(size, m, target); }
      HandsOverCount(at, size, sched, k + 1, n - 1, target);
    }
  }

  function HandOverBound(s: State): nat { 2 * |s.q.items| + |s.t.batch| }

  /** Everything accepted so far is on Input, in order, within two of the sender's steps for each queued message
      and one for each in its buffer, whether or not the queue is ever sealed. */
  lemma HandsOverWithin(at: nat -> State, size: nat, sched: nat -> Turn, k: nat, m: nat)
    requires Follows(at, Sender, size, sched) && size > 0 && m >= k + HandOverBound(at(k))
    ensures at(k).h.accepted <= at(m).h.input
  {
    TraceInv(at, Sender, size, sched, k);
    assert |at(k).h.accepted| == |at(k).h.input| + |at(k).t.batch| + |at(k).q.items|;
    HandsOverCount(at, size, sched, k, m - k, |at(k).h.accepted|);
    TraceInv(at, Sender, size, sched, m);
    assert at(m).h.accepted == at(m).h.input + (at(m).t.batch + at(m).q.items);
  }

  /** A sender that is gone puts nothing more on Input. */
  lemma {:induction false} GoneHandsOverNothing(at: nat -> State, size: nat, sched: nat -> Turn, k: nat, n: nat)
    requires Follows(at, Sender, size, sched) && at(k).t.sender.Gone?
    ensures at(k + n).t.sender.Gone? && at(k + n).h.input == at(k).h.input
    decreases n
  {
    if n > 0 {
      TraceInv(at, Sender, size, sched, k);
      OthersHandOverNothing(at(k), sched(k));
      NextTurn(at, Sender, size, sched, k);
      GoneHandsOverNothing(at, size, sched, k + 1, n - 1);
    }
  }
}
