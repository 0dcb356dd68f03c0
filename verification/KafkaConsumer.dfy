/** The Kafka consumer group: any number of ConsumeClaim loops feeding one shared queue, the
    dispatch worker, the handler's Acks, session ends, cancellation and the shutdown sequence
    of SyncSubscribe, as a machine whose steps are the atomic actions of those goroutines. */
module KafkaConsumer {
  import M = Machine

  /** A message is identified by its claim (one partition in one session) and its offset. */
  datatype Message = Message(claim: nat, offset: int)

  datatype ClaimPc =
    | Ranging        // at `range claim.Messages()`
    | CheckSession   // session.Context().Err()
    | CheckParent    // parentCtx.Context().Err()
    | Trying         // queue.TryEnqueue
    | Marking        // session.MarkMessage
    | Done

  /** One ConsumeClaim loop.  `received` are the offsets taken from the claim's channel, `sent`
      how many of them were enqueued, `mark` the session's mark for this partition. */
  datatype Claim = Claim(session: nat, start: int, received: seq<int>, sent: nat, mark: int, pc: ClaimPc)

  datatype WorkerPc = Polling | Dispatching | CheckCtx | Gone

  datatype Worker = Worker(pc: WorkerPc, batch: seq<Message>)

  /** SyncSubscribe after its context is done: pause, close the group, close the queue, wait for the worker. */
  datatype Sync = Serving | Paused | GroupClosed | Sealed | Finished

  /** `emptyAt`: how much had been enqueued when TryDequeueTo last found the queue empty; `cancelAt`:
      how much at cancellation; `armed`: the claims about to call TryEnqueue at cancellation. */
  datatype History = History(enqueued: seq<Message>, dispatched: seq<Message>, emptyAt: nat, cancelAt: nat, armed: set<nat>)

  datatype Shared = Shared(queue: seq<Message>, sealed: bool, ctxDone: bool, ended: set<nat>, sync: Sync)

  datatype State = State(claims: seq<Claim>, sh: Shared, w: Worker, h: History)

  datatype Event =
    | OpenClaim(session: nat, start: int)   // a rebalance hands out a partition
    | EndSession(session: nat)
    | Cancel                                // Close, or the parent, cancels the context
    | Receive(c: nat, offset: int)          // the claim's channel yields a message
    | ChannelClosed(c: nat)
    | ClaimLoad(c: nat)                     // one of the two context checks
    | Try(c: nat, full: bool)               // TryEnqueue; whether the ring is full is left open
    | Mark(c: nat)
    | Ack(k: nat)                           // the handler acknowledges the k-th dispatched message
    | Poll(n: nat)                          // worker: TryDequeueTo
    | Dispatch                              // worker: the handler runs on the next message
    | WorkerLoad                            // worker: context check after an empty poll
    | SyncNext                              // SyncSubscribe: its next shutdown step

  const Init := State([], Shared([], false, false, {}, Serving), Worker(Polling, []), History([], [], 0, 0, {}))

  function Max(a: int, b: int): int { if a < b then b else a }

  predicate Live(s: State, c: nat) { c < |s.claims| && !s.claims[c].pc.Done? }

  predicate At(s: State, c: nat, pc: ClaimPc) { c < |s.claims| && s.claims[c].pc == pc }

  /** A Kafka partition hands out strictly increasing offsets from the session's start on. */
  predicate Deliverable(cl: Claim, offset: int) {
    offset >= cl.start && (cl.received != [] ==> offset > cl.received[|cl.received| - 1])
  }

  function AtTry(claims: seq<Claim>): set<nat> {
    set c: nat | c < |claims| && claims[c].pc.Trying?
  }

  predicate AllDone(claims: seq<Claim>) {
    forall c :: 0 <= c < |claims| ==> claims[c].pc.Done?
  }

  /** Steps of the c-th claim loop. */
  predicate IsOwn(e: Event, c: nat) {
    match e
    case Receive(d, _) => d == c
    case ChannelClosed(d) => d == c
    case ClaimLoad(d) => d == c
    case Try(d, _) => d == c
    case Mark(d) => d == c
    case _ => false
  }

  // ---- steps ----

  function Put(s: State, c: nat, cl: Claim): State
    requires c < |s.claims|
  {
    s.(claims := s.claims[c := cl])
  }

  function DoCancel(s: State): State {
    if s.sh.ctxDone then s
    else s.(sh := s.sh.(ctxDone := true),
            h := s.h.(cancelAt := |s.h.enqueued|, armed := AtTry(s.claims)))
  }

  function DoReceive(s: State, c: nat, offset: int): State {
    if !At(s, c, Ranging) || !Deliverable(s.claims[c], offset) then s
    else Put(s, c, s.claims[c].(received := s.claims[c].received + [offset], pc := CheckSession))
  }

  function DoClaimLoad(s: State, c: nat): State {
    if At(s, c, CheckSession) then
      Put(s, c, s.claims[c].(pc := if s.claims[c].session in s.sh.ended then Done else CheckParent))
    else if At(s, c, CheckParent) then
      Put(s, c, s.claims[c].(pc := if s.sh.ctxDone then Done else Trying))
    else s
  }

  function DoTry(s: State, c: nat, full: bool): State {
    if !At(s, c, Trying) || s.claims[c].received == [] then s
    else
      var cl := s.claims[c];
      if full || s.sh.sealed then Put(s, c, cl.(pc := CheckSession))
      else
        var m := Message(c, cl.received[|cl.received| - 1]);
        State(s.claims[c := cl.(sent := cl.sent + 1, pc := Marking)],
              s.sh.(queue := s.sh.queue + [m]), s.w, s.h.(enqueued := s.h.enqueued + [m]))
  }

  function DoMark(s: State, c: nat): State {
    if !At(s, c, Marking) || s.claims[c].received == [] then s
    else
      var cl := s.claims[c];
      Put(s, c, cl.(mark := Max(cl.mark, cl.received[|cl.received| - 1] + 1), pc := Ranging))
  }

  function DoAck(s: State, k: nat): State {
    if k >= |s.h.dispatched| || s.h.dispatched[k].claim >= |s.claims| then s
    else
      var m := s.h.dispatched[k];
      Put(s, m.claim, s.claims[m.claim].(mark := Max(s.claims[m.claim].mark, m.offset + 1)))
  }

  function DoPoll(s: State, n: nat): State {
    if !s.w.pc.Polling? then s
    else if s.sh.queue == [] then
      s.(w := s.w.(pc := if s.sh.sealed then Gone else CheckCtx), h := s.h.(emptyAt := |s.h.enqueued|))
    else if 1 <= n <= |s.sh.queue| then
      s.(sh := s.sh.(queue := s.sh.queue[n..]), w := s.w.(batch := s.sh.queue[..n], pc := Dispatching))
    else s
  }

  function DoDispatch(s: State): State {
    if !s.w.pc.Dispatching? || s.w.batch == [] then s
    else s.(w := s.w.(batch := s.w.batch[1..], pc := if |s.w.batch| == 1 then Polling else Dispatching),
            h := s.h.(dispatched := s.h.dispatched + [s.w.batch[0]]))
  }

  function DoSync(s: State): State {
    match s.sh.sync
    case Serving => if s.sh.ctxDone then s.(sh := s.sh.(sync := Paused)) else s
    case Paused =>
      if AllDone(s.claims) then s.(sh := s.sh.(sync := GroupClosed)) else s
    case GroupClosed => s.(sh := s.sh.(sealed := true, sync := Sealed))
    case Sealed => if s.w.pc.Gone? then s.(sh := s.sh.(sync := Finished)) else s
    case Finished => s
  }

  function Step(s: State, e: Event): State {
    match e
    case OpenClaim(session, start) =>
      if s.sh.sync.Serving? || s.sh.sync.Paused? then
        s.(claims := s.claims + [Claim(session, start, [], 0, start, Ranging)])
      else s
    case EndSession(session) => s.(sh := s.sh.(ended := s.sh.ended + {session}))
    case Cancel => DoCancel(s)
    case Receive(c, offset) => DoReceive(s, c, offset)
    case ChannelClosed(c) => if At(s, c, Ranging) then Put(s, c, s.claims[c].(pc := Done)) else s
    case ClaimLoad(c) => DoClaimLoad(s, c)
    case Try(c, full) => DoTry(s, c, full)
    case Mark(c) => DoMark(s, c)
    case Ack(k) => DoAck(s, k)
    case Poll(n) => DoPoll(s, n)
    case Dispatch => DoDispatch(s)
    case WorkerLoad => if s.w.pc.CheckCtx? then s.(w := s.w.(pc := if s.sh.ctxDone then Gone else Polling)) else s
    case SyncNext => DoSync(s)
  }

  /** The other goroutines leave a claim loop alone, but for its session's mark. */
  lemma OthersLeaveClaim(s: State, e: Event, c: nat)
    requires !IsOwn(e, c) && c < |s.claims|
    ensures c < |Step(s, e).claims| && Step(s, e).claims[c].(mark := 0) == s.claims[c].(mark := 0)
  {}

  function RunFrom(s: State, log: seq<Event>): State { M.RunFrom(Step, s, log) }

  function Run(log: seq<Event>): State { RunFrom(Init, log) }

  // ---- invariant of one claim ----

  ghost predicate Increasing(offsets: seq<int>) {
    forall i, j :: 0 <= i < j < |offsets| ==> offsets[i] < offsets[j]
  }

  /** One past the k-th received offset: where the mark stands once k messages are marked. */
  function MarkAfter(cl: Claim, k: nat): int
    requires k <= |cl.received|
  {
    if k == 0 then cl.start else cl.received[k - 1] + 1
  }

  ghost predicate ClaimInv(cl: Claim) {
    && Increasing(cl.received)
    && (forall i :: 0 <= i < |cl.received| ==> cl.received[i] >= cl.start)
    && cl.sent <= |cl.received| <= cl.sent + 1
    && (cl.pc.CheckSession? || cl.pc.CheckParent? || cl.pc.Trying? ==> |cl.received| == cl.sent + 1)
    && (cl.pc.Ranging? || cl.pc.Marking? ==> |cl.received| == cl.sent)
    && (cl.pc.Marking? ==> cl.sent > 0 && (cl.mark == MarkAfter(cl, cl.sent) || cl.mark == MarkAfter(cl, cl.sent - 1)))
    && (!cl.pc.Marking? ==> cl.mark == MarkAfter(cl, cl.sent))
  }

  ghost predicate ClaimsInv(claims: seq<Claim>) {
    forall c :: 0 <= c < |claims| ==> ClaimInv(claims[c])
  }

  // ---- the enqueued messages claim by claim ----

  /** Offsets of claim c in `ms`, in order. */
  function Of(ms: seq<Message>, c: nat): seq<int> {
    if ms == [] then []
    else Of(ms[..|ms| - 1], c) + if ms[|ms| - 1].claim == c then [ms[|ms| - 1].offset] else []
  }

  lemma OfSnoc(ms: seq<Message>, m: Message, c: nat)
    ensures Of(ms + [m], c) == Of(ms, c) + if m.claim == c then [m.offset] else []
  {
    assert (ms + [m])[..|ms|] == ms;
  }

  lemma {:induction false} OfContains(ms: seq<Message>, k: nat)
    requires k < |ms|
    ensures ms[k].offset in Of(ms, ms[k].claim)
    decreases |ms|
  {
    if k < |ms| - 1 {
      OfContains(ms[..|ms| - 1], k);
    }
  }

  /** Claim by claim, the enqueued messages are a prefix of what the claim received. */
  ghost predicate OrderInv(claims: seq<Claim>, enqueued: seq<Message>) {
    && (forall i :: 0 <= i < |enqueued| ==> enqueued[i].claim < |claims|)
    && (forall c {:trigger claims[c]} :: 0 <= c < |claims| ==>
          claims[c].sent <= |claims[c].received| && Of(enqueued, c) == claims[c].received[..claims[c].sent])
  }

  // ---- the worker and the shutdown sequence ----

  ghost predicate WorkerInv(sh: Shared, w: Worker, h: History) {
    && h.enqueued == h.dispatched + w.batch + sh.queue
    && (w.pc.Dispatching? <==> w.batch != [])
    && (w.pc.CheckCtx? || w.pc.Gone? ==> |h.dispatched| == h.emptyAt)
    && (w.pc.Gone? ==> sh.ctxDone)
  }

  ghost predicate SyncInv(sh: Shared, claims: seq<Claim>, w: Worker) {
    && (sh.sealed <==> sh.sync.Sealed? || sh.sync.Finished?)
    && (!sh.sync.Serving? ==> sh.ctxDone)
    && (sh.sync.GroupClosed? || sh.sync.Sealed? || sh.sync.Finished? ==> AllDone(claims))
    && (sh.sync.Finished? ==> w.pc.Gone?)
  }

  // ---- after cancellation ----

  /** Messages enqueued after cancellation. */
  function Late(h: History): seq<Message> {
    if h.cancelAt <= |h.enqueued| then h.enqueued[h.cancelAt..] else []
  }

  ghost predicate OncePerArmed(late: seq<Message>, armed: set<nat>) {
    && (forall i, j :: 0 <= i < j < |late| ==> late[i].claim != late[j].claim)
    && (forall i :: 0 <= i < |late| ==> late[i].claim in armed)
  }

  ghost predicate TryingIsArmed(claims: seq<Claim>, late: seq<Message>, armed: set<nat>) {
    forall c :: 0 <= c < |claims| && claims[c].pc.Trying? ==>
      c in armed && forall i :: 0 <= i < |late| ==> late[i].claim != c
  }

  ghost predicate LateInv(ctxDone: bool, claims: seq<Claim>, h: History) {
    ctxDone ==> h.cancelAt <= |h.enqueued| && OncePerArmed(Late(h), h.armed) && TryingIsArmed(claims, Late(h), h.armed)
  }

  ghost predicate Inv(s: State) {
    && ClaimsInv(s.claims) && OrderInv(s.claims, s.h.enqueued)
    && WorkerInv(s.sh, s.w, s.h) && SyncInv(s.sh, s.claims, s.w)
    && LateInv(s.sh.ctxDone, s.claims, s.h)
  }

  // ---- every step keeps the invariant ----

  /** Updating one claim without touching what it enqueued. */
  lemma PutKeepsInv(s: State, c: nat, cl: Claim)
    requires Inv(s) && c < |s.claims| && ClaimInv(cl)
    requires cl.sent == s.claims[c].sent && cl.received[..cl.sent] == s.claims[c].received[..cl.sent]
    requires s.claims[c].pc.Done? ==> cl.pc.Done?
    requires cl.pc.Trying? && s.sh.ctxDone ==> s.claims[c].pc.Trying?
    ensures Inv(Put(s, c, cl))
  {}

  lemma TryKeepsOrder(s: State, c: nat, m: Message)
    requires ClaimsInv(s.claims) && OrderInv(s.claims, s.h.enqueued)
    requires At(s, c, Trying) && s.claims[c].received != []
    requires m == Message(c, s.claims[c].received[|s.claims[c].received| - 1])
    ensures var cl := s.claims[c].(sent := s.claims[c].sent + 1, pc := Marking);
      ClaimInv(cl) && OrderInv(s.claims[c := cl], s.h.enqueued + [m])
  {
    var cl := s.claims[c].(sent := s.claims[c].sent + 1, pc := Marking);
    var claims := s.claims[c := cl];
    forall d {:trigger claims[d]} | 0 <= d < |claims|
      ensures claims[d].sent <= |claims[d].received|
      ensures Of(s.h.enqueued + [m], d) == claims[d].received[..claims[d].sent]
    {
      OfSnoc(s.h.enqueued, m, d);
      assert Of(s.h.enqueued, d) == s.claims[d].received[..s.claims[d].sent];
      assert cl.received[..cl.sent] == cl.received[..cl.sent - 1] + [cl.received[cl.sent - 1]];
    }
  }

  lemma LateAppend(claims: seq<Claim>, late: seq<Message>, armed: set<nat>, m: Message, cl: Claim)
    requires OncePerArmed(late, armed) && TryingIsArmed(claims, late, armed)
    requires m.claim < |claims| && claims[m.claim].pc.Trying? && !cl.pc.Trying?
    ensures OncePerArmed(late + [m], armed) && TryingIsArmed(claims[m.claim := cl], late + [m], armed)
  {}

  lemma TryKeepsInv(s: State, c: nat, full: bool)
    requires Inv(s)
    ensures Inv(DoTry(s, c, full))
  {
    var s' := DoTry(s, c, full);
    if s' == s {
    } else if full || s.sh.sealed {
      PutKeepsInv(s, c, s.claims[c].(pc := CheckSession));
    } else {
      var m := Message(c, s.claims[c].received[|s.claims[c].received| - 1]);
      TryKeepsOrder(s, c, m);
      assert s'.h.enqueued == s'.h.dispatched + s'.w.batch + s'.sh.queue;
      if s.sh.ctxDone {
        LateAppend(s.claims, Late(s.h), s.h.armed, m, s'.claims[c]);
        assert Late(s'.h) == Late(s.h) + [m];
      }
      assert !s.claims[c].pc.Done?;
    }
  }

  lemma MarkEnqueued(cl: Claim, offset: int)
    requires ClaimInv(cl) && offset in cl.received[..cl.sent]
    ensures ClaimInv(cl.(mark := Max(cl.mark, offset + 1)))
  {
    var i :| 0 <= i < cl.sent && cl.received[i] == offset;
    assert offset + 1 <= MarkAfter(cl, cl.sent);
    assert i < cl.sent - 1 ==> offset + 1 <= MarkAfter(cl, cl.sent - 1);
  }

  /** An acknowledged message was enqueued, so its mark never passes the last enqueued one. */
  lemma AckKeepsInv(s: State, k: nat)
    requires Inv(s)
    ensures Inv(DoAck(s, k))
  {
    if k < |s.h.dispatched| {
      var m := s.h.dispatched[k];
      assert s.h.enqueued[k] == m;
      OfContains(s.h.enqueued, k);
      var cl := s.claims[m.claim];
      MarkEnqueued(cl, m.offset);
      PutKeepsInv(s, m.claim, cl.(mark := Max(cl.mark, m.offset + 1)));
    }
  }

  lemma MarkKeepsInv(s: State, c: nat)
    requires Inv(s)
    ensures Inv(DoMark(s, c))
  {
    if At(s, c, Marking) && s.claims[c].received != [] {
      var cl := s.claims[c];
      PutKeepsInv(s, c, cl.(mark := Max(cl.mark, cl.received[|cl.received| - 1] + 1), pc := Ranging));
    }
  }

  lemma ReceiveKeepsClaim(cl: Claim, offset: int)
    requires ClaimInv(cl) && cl.pc.Ranging? && Deliverable(cl, offset)
    ensures ClaimInv(cl.(received := cl.received + [offset], pc := CheckSession))
  {
    var cl' := cl.(received := cl.received + [offset], pc := CheckSession);
    assert MarkAfter(cl', cl.sent) == MarkAfter(cl, cl.sent);
    assert Increasing(cl'.received);
  }

  lemma ReceiveKeepsInv(s: State, c: nat, offset: int)
    requires Inv(s)
    ensures Inv(DoReceive(s, c, offset))
  {
    if At(s, c, Ranging) && Deliverable(s.claims[c], offset) {
      var cl := s.claims[c];
      ReceiveKeepsClaim(cl, offset);
      assert (cl.received + [offset])[..cl.sent] == cl.received[..cl.sent];
      PutKeepsInv(s, c, cl.(received := cl.received + [offset], pc := CheckSession));
    }
  }

  lemma ClaimLoadKeepsInv(s: State, c: nat)
    requires Inv(s)
    ensures Inv(DoClaimLoad(s, c))
  {
    if At(s, c, CheckSession) {
      PutKeepsInv(s, c, s.claims[c].(pc := if s.claims[c].session in s.sh.ended then Done else CheckParent));
    } else if At(s, c, CheckParent) {
      PutKeepsInv(s, c, s.claims[c].(pc := if s.sh.ctxDone then Done else Trying));
    }
  }

  lemma OpenKeepsOrder(claims: seq<Claim>, enqueued: seq<Message>, cl: Claim)
    requires OrderInv(claims, enqueued) && cl.sent == 0
    ensures OrderInv(claims + [cl], enqueued)
  {
    NoneOf(enqueued, |claims|);
    var all := claims + [cl];
    forall c {:trigger all[c]} | 0 <= c < |all|
      ensures all[c].sent <= |all[c].received| && Of(enqueued, c) == all[c].received[..all[c].sent]
    {
      assert c < |claims| ==> all[c] == claims[c];
    }
  }

  lemma OpenKeepsInv(s: State, session: nat, start: int)
    requires Inv(s)
    ensures Inv(Step(s, OpenClaim(session, start)))
  {
    var cl := Claim(session, start, [], 0, start, Ranging);
    if s.sh.sync.Serving? || s.sh.sync.Paused? {
      assert ClaimInv(cl);
      OpenKeepsOrder(s.claims, s.h.enqueued, cl);
    }
  }

  lemma {:induction false} NoneOf(ms: seq<Message>, c: nat)
    requires forall i :: 0 <= i < |ms| ==> ms[i].claim != c
    ensures Of(ms, c) == []
    decreases |ms|
  {
    if ms != [] {
      NoneOf(ms[..|ms| - 1], c);
    }
  }

  lemma WorkerKeepsInv(s: State, e: Event)
    requires Inv(s) && (e.Dispatch? || e.Poll? || e.WorkerLoad?)
    ensures Inv(Step(s, e))
  {
    var s' := Step(s, e);
    assert s'.claims == s.claims && Late(s'.h) == Late(s.h);
    assert WorkerInv(s'.sh, s'.w, s'.h);
  }

  lemma SyncKeepsInv(s: State)
    requires Inv(s)
    ensures Inv(DoSync(s))
  {}

  lemma CancelKeepsInv(s: State)
    requires Inv(s)
    ensures Inv(DoCancel(s))
  {}

  lemma StepKeepsInv(s: State, e: Event)
    requires Inv(s)
    ensures Inv(Step(s, e))
  {
    match e
    case OpenClaim(session, start) => OpenKeepsInv(s, session, start);
    case EndSession(session) =>
    case Cancel => CancelKeepsInv(s);
    case Receive(c, offset) => ReceiveKeepsInv(s, c, offset);
    case ChannelClosed(c) => if At(s, c, Ranging) { PutKeepsInv(s, c, s.claims[c].(pc := Done)); }
    case ClaimLoad(c) => ClaimLoadKeepsInv(s, c);
    case Try(c, full) => TryKeepsInv(s, c, full);
    case Mark(c) => MarkKeepsInv(s, c);
    case Ack(k) => AckKeepsInv(s, k);
    case SyncNext => SyncKeepsInv(s);
    case _ => WorkerKeepsInv(s, e);
  }

  lemma {:induction false} RunFromKeepsInv(s: State, log: seq<Event>)
    requires Inv(s)
    ensures Inv(RunFrom(s, log))
    decreases |log|
  {
    if log != [] {
      StepKeepsInv(s, log[0]);
      RunFromKeepsInv(Step(s, log[0]), log[1..]);
    }
  }

  /** Every reachable state satisfies the invariant. */
  lemma RunInv(log: seq<Event>)
    ensures Inv(Run(log))
  {
    RunFromKeepsInv(Init, log);
  }
}
