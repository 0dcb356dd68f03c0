/** A delivery, SyncSubscribe or a Close call of the RabbitMQ consumer in the foreground: which event its
    next atomic step is, and where a schedule of everything else takes the consumer. */
module RabbitTrace {
  import M = Machine
  import opened RabbitConsumer

  /** Steps of the other goroutines before one step of the foreground one; `runEnds`: Run returns now. */
  datatype Turn = Turn(others: seq<Event>, runEnds: bool)

  datatype Role = Delivery(i: nat) | Subscription | Closer

  predicate Mine(me: Role, e: Event) {
    match me
    case Delivery(i) => e == Handle(i)
    case Subscription => e.ReturnRun? || e.SubNext?
    case Closer => e.CloseNext?
  }

  function IsMine(me: Role): Event -> bool { e => Mine(me, e) }

  /** The foreground goroutine's k-th event; a Close call begins with its swap.  While Run goes on, or a
      wait is not over, the event changes nothing. */
  function OwnEvent(me: Role, k: nat, s: State, turn: Turn): Event {
    match me
    case Delivery(i) => Handle(i)
    case Subscription => if s.sh.sub.InRun? && turn.runEnds then ReturnRun else SubNext
    case Closer => if k == 0 then CloseCall else CloseNext
  }

  function Others(me: Role, s: State, es: seq<Event>): State { RunFrom(s, M.Theirs(IsMine(me), es)) }

  function Turned(me: Role, s: State, k: nat, turn: Turn): State {
    var m := Others(me, s, turn.others);
    Step(m, OwnEvent(me, k, m, turn))
  }

  function AdvanceTurn(me: Role): (State, (nat, Turn)) -> State {
    (s: State, turn: (nat, Turn)) => Turned(me, s, turn.0, turn.1)
  }

  function Numbered(sched: nat -> Turn): nat -> (nat, Turn) { (k: nat) => (k, sched(k)) }

  /** The consumer after k atomic steps of its foreground goroutine. */
  function Trace(me: Role, base: State, sched: nat -> Turn, k: nat): State {
    M.Trace(AdvanceTurn(me), base, Numbered(sched), k)
  }

  /** `at` is the trace as a function of the number of steps. */
  ghost predicate Follows(at: nat -> State, me: Role, base: State, sched: nat -> Turn) {
    forall k: nat {:trigger Trace(me, base, sched, k)} :: at(k) == Trace(me, base, sched, k)
  }

  lemma NextTurn(at: nat -> State, me: Role, base: State, sched: nat -> Turn, k: nat)
    requires Follows(at, me, base, sched)
    ensures at(k + 1) == Turned(me, at(k), k, sched(k))
  {
    assert at(k) == Trace(me, base, sched, k) && at(k + 1) == Trace(me, base, sched, k + 1);
  }

  /** The foreground goroutine's own part of the state. */
  predicate Kept(me: Role, s: State, t: State) {
    match me
    case Delivery(i) => i < |s.hs| ==> i < |t.hs| && t.hs[i] == s.hs[i]
    case Subscription => t.sh.sub == s.sh.sub
    case Closer => s.sh.isClosed ==> t.sh.isClosed && t.sh.close == s.sh.close
  }

  lemma OtherKeeps(me: Role, s: State, e: Event)
    requires !Mine(me, e)
    ensures Kept(me, s, Step(s, e))
  {}

  /** A trace from a reachable state is a run. */
  lemma TraceIsRun(at: nat -> State, me: Role, before: seq<Event>, sched: nat -> Turn, k: nat) returns (log: seq<Event>)
    requires Follows(at, me, Run(before), sched)
    ensures at(k) == Run(log)
  {
    var path := (s: State, turn: (nat, Turn)) =>
      M.Theirs(IsMine(me), turn.1.others) + [OwnEvent(me, turn.0, Others(me, s, turn.1.others), turn.1)];
    forall s, turn ensures AdvanceTurn(me)(s, turn) == M.RunFrom(Step, s, path(s, turn)) {
      M.RunSnoc(Step, s, M.Theirs(IsMine(me), turn.1.others), OwnEvent(me, turn.0, Others(me, s, turn.1.others), turn.1));
    }
    var after := M.TraceIsRun(Step, AdvanceTurn(me), path, Run(before), Numbered(sched), k);
    M.RunFromAppend(Step, Init, before, after);
    assert at(k) == Trace(me, Run(before), sched, k);
    log := before + after;
  }

  // ---- the waits end in time ----

  /** Run has returned and every delivery it made is done. */
  predicate Quieted(s: State) { !s.sh.sub.InRun? && forall i :: 0 <= i < |s.hs| ==> s.hs[i].pc.Done? }

  lemma QuietedStep(s: State, e: Event)
    requires Quieted(s)
    ensures Quieted(Step(s, e))
  {}

  lemma {:induction false} QuietedOthers(s: State, es: seq<Event>)
    requires Quieted(s)
    ensures Quieted(Others(Subscription, s, es)) && Others(Subscription, s, es).sh.sub == s.sh.sub
    decreases |es|
  {
    if es != [] {
      var n := |es| - 1;
      QuietedOthers(s, es[..n]);
      M.TheirsSnoc(Step, IsMine(Subscription), s, es, n);
      assert es[..n + 1] == es;
      var m := Others(Subscription, s, es[..n]);
      QuietedStep(m, es[n]);
      if !Mine(Subscription, es[n]) { OtherKeeps(Subscription, m, es[n]); }
    }
  }

  function SubLeft(p: SubPc): nat { match p case InRun => 3 case RunReturned => 2 case Waited => 1 case Exited => 0 }

  /** With Run returned and its deliveries done, SyncSubscribe has returned within two of its steps. */
  lemma {:induction false} SubscriptionEndsWithin(at: nat -> State, base: State, sched: nat -> Turn, k: nat, n: nat)
    requires Follows(at, Subscription, base, sched) && Quieted(at(k)) && SubLeft(at(k).sh.sub) <= n
    ensures at(k + n).sh.sub.Exited?
    decreases n
  {
    if n > 0 {
      NextTurn(at, Subscription, base, sched, k);
      QuietedOthers(at(k), sched(k).others);
      QuietedStep(Others(Subscription, at(k), sched(k).others), SubNext);
      SubscriptionEndsWithin(at, base, sched, k + 1, n - 1);
    }
  }

  function CloseLeft(p: ClosePc): nat {
    match p case NotCalled => 4 case Swapped => 3 case ConsumerClosed => 2 case GroupDone => 1 case ConnClosed => 0
  }

  lemma {:induction false} ExitedOthers(s: State, es: seq<Event>)
    requires s.sh.sub.Exited? && s.sh.isClosed
    ensures var m := Others(Closer, s, es); m.sh.sub.Exited? && m.sh.isClosed && m.sh.close == s.sh.close
    decreases |es|
  {
    if es != [] {
      var n := |es| - 1;
      ExitedOthers(s, es[..n]);
      M.TheirsSnoc(Step, IsMine(Closer), s, es, n);
      assert es[..n + 1] == es;
      var m := Others(Closer, s, es[..n]);
      if !Mine(Closer, es[n]) { OtherKeeps(Closer, m, es[n]); }
    }
  }

  /** With SyncSubscribe gone a Close call past its swap has closed the connection within three of its steps. */
  lemma {:induction false} CloseEndsWithin(at: nat -> State, base: State, sched: nat -> Turn, k: nat, n: nat)
    requires Follows(at, Closer, base, sched) && k > 0 && at(k).sh.sub.Exited? && at(k).sh.isClosed
    requires !at(k).sh.close.NotCalled? && CloseLeft(at(k).sh.close) <= n
    ensures at(k + n).sh.close.ConnClosed?
    decreases n
  {
    if n > 0 {
      NextTurn(at, Closer, base, sched, k);
      ExitedOthers(at(k), sched(k).others);
      CloseEndsWithin(at, base, sched, k + 1, n - 1);
    }
  }
}
