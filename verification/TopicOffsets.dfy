/** Start offsets of a Kafka consumer group: SetOffset, QueryTopics, and the reset that Setup makes in
    the first session. */
module TopicOffsets {

  const NEWEST := -1
  const OLDEST := -2

  /** sarama's client: the partitions of a topic, or an error, and the offset a query answers. */
  datatype Broker = Broker(partitions: string -> Lookup, offset: (string, int, int) -> int)
  datatype Lookup = Partitions(list: seq<int>) | Failed

  datatype Reset = Reset(topic: string, partition: int, offset: int)

  /** A topic's name and partition map at one moment. */
  datatype Listed = Listed(name: string, partition: map<int, int>)

  predicate Distinct<T(==)>(list: seq<T>) {
    forall i, j :: 0 <= i < j < |list| ==> list[i] != list[j]
  }

  predicate Bounded(m: map<int, int>) { forall p :: p in m ==> m[p] >= -2 }

  function Clamp(offset: int): int { if offset < OLDEST then OLDEST else offset }

  /** A missing key reads as 0. */
  function At(m: map<int, int>, p: int): int { if p in m then m[p] else 0 }

  // ---- resolution ----

  function ResolveOne(broker: Broker, name: string, m: map<int, int>, p: int): map<int, int> {
    if At(m, p) == NEWEST then m[p := Clamp(broker.offset(name, p, NEWEST))]
    else if At(m, p) == OLDEST then m[p := Clamp(broker.offset(name, p, OLDEST))]
    else m
  }

  function ResolveAll(broker: Broker, name: string, m: map<int, int>, ps: seq<int>): map<int, int> {
    if ps == [] then m
    else ResolveOne(broker, name, ResolveAll(broker, name, m, ps[..|ps| - 1]), ps[|ps| - 1])
  }

  function Resolved(broker: Broker, name: string, m: map<int, int>): map<int, int> {
    match broker.partitions(name)
    case Partitions(list) => ResolveAll(broker, name, m, list)
    case Failed => m
  }

  /** The broker was asked for this partition's offset. */
  predicate Queried(broker: Broker, l: Listed, p: int) {
    && broker.partitions(l.name).Partitions? && p in broker.partitions(l.name).list
    && p in l.partition && (l.partition[p] == -1 || l.partition[p] == -2)
  }

  lemma {:induction false} ResolveAllAt(broker: Broker, name: string, m: map<int, int>, ps: seq<int>)
    requires Distinct(ps)
    ensures var r := ResolveAll(broker, name, m, ps);
      r.Keys == m.Keys && forall p :: p in m ==>
        r[p] == if p in ps && (m[p] == NEWEST || m[p] == OLDEST) then Clamp(broker.offset(name, p, m[p])) else m[p]
    decreases |ps|
  {
    if ps != [] {
      var n := |ps| - 1;
      ResolveAllAt(broker, name, m, ps[..n]);
      assert ps == ps[..n] + [ps[n]];
      assert ps[n] !in ps[..n];
    }
  }

  /** Resolution adds and drops no partition, asks once for each partition that holds one of the two
      special offsets, -1 or -2, and is known to the broker, and leaves every other offset alone.  An answer
      below -2 is stored as -2, the oldest offset; any other answer as it is. */
  lemma ResolvedAt(broker: Broker, l: Listed)
    requires broker.partitions(l.name).Partitions? ==> Distinct(broker.partitions(l.name).list)
    ensures var r := Resolved(broker, l.name, l.partition);
      r.Keys == l.partition.Keys && forall p :: p in l.partition ==>
        if !Queried(broker, l, p) then r[p] == l.partition[p]
        else if broker.offset(l.name, p, l.partition[p]) < -2 then r[p] == -2
        else r[p] == broker.offset(l.name, p, l.partition[p])
  {
    match broker.partitions(l.name)
    case Partitions(list) => ResolveAllAt(broker, l.name, l.partition, list);
    case Failed =>
  }

  lemma {:induction false} ResolveAllBounded(broker: Broker, name: string, m: map<int, int>, ps: seq<int>)
    requires Bounded(m)
    ensures Bounded(ResolveAll(broker, name, m, ps))
    decreases |ps|
  {
    if ps != [] { ResolveAllBounded(broker, name, m, ps[..|ps| - 1]); }
  }

  /** SetOffset is the only writer, so offsets that start at -2 or above stay there, whatever the broker answers. */
  lemma ResolvedBounded(broker: Broker, name: string, m: map<int, int>)
    requires Bounded(m)
    ensures Bounded(Resolved(broker, name, m))
  {
    match broker.partitions(name)
    case Partitions(list) => ResolveAllBounded(broker, name, m, list);
    case Failed =>
  }

  // ---- what a session is to reset ----

  predicate Due(l: Listed, claims: map<string, seq<int>>, r: Reset) {
    && r.topic == l.name && l.name in claims && r.partition in claims[l.name]
    && r.partition in l.partition && r.offset == l.partition[r.partition] && r.offset >= 0
  }

  predicate DueAmong(ls: seq<Listed>, claims: map<string, seq<int>>, r: Reset) {
    exists i :: 0 <= i < |ls| && Due(ls[i], claims, r)
  }

  predicate OncePerPartition(rs: seq<Reset>) {
    forall i, j :: 0 <= i < j < |rs| ==> rs[i].topic != rs[j].topic || rs[i].partition != rs[j].partition
  }

  predicate DistinctNames(ls: seq<Listed>) {
    forall i, j :: 0 <= i < j < |ls| ==> ls[i].name != ls[j].name
  }

  /** End to end: from the configured offset to the reset.  A partition is reset if and only if it is
      claimed and listed, and either it was configured with a real offset, which is the one used, or
      with a special one that the broker resolved to a real offset.  Nothing else is ever reset: not an
      unlisted partition, not one the broker does not know, not one whose query answered below 0. */
  lemma ResetIff(broker: Broker, l: Listed, claims: map<string, seq<int>>, r: Reset)
    requires broker.partitions(l.name).Partitions? ==> Distinct(broker.partitions(l.name).list)
    ensures Due(l.(partition := Resolved(broker, l.name, l.partition)), claims, r)
            <==> r.topic == l.name && l.name in claims && r.partition in claims[l.name] && r.partition in l.partition
                 && r.offset >= 0
                 && r.offset == if Queried(broker, l, r.partition)
                                then broker.offset(l.name, r.partition, l.partition[r.partition])
                                else l.partition[r.partition]
  {
    ResolvedAt(broker, l);
  }

  // ---- the code ----

  class Topic {
    const name: string
    /** A nil map reads as the empty one. */
    var partition: map<int, int>

    /** NewTopic */
    constructor (name: string)
      ensures this.name == name && partition == map[0 := -1] && Bounded(partition)
    {
      this.name := name;
      partition := map[0 := NEWEST];
    }

    function Now(): Listed
      reads this
    {
      Listed(name, partition)
    }

    method SetOffset(p: int, offset: int)
      modifies this
      ensures partition == old(partition)[p := Clamp(offset)]
      ensures offset < -2 ==> partition[p] == -2
      ensures offset >= -2 ==> partition[p] == offset
      ensures old(Bounded(partition)) ==> Bounded(partition)
    {
      var o := offset;
      if o < -2 { o := OLDEST; }
      partition := partition[p := o];
    }

    /** The inner loop of QueryTopics, for a topic whose partitions the broker listed. */
    method Query(broker: Broker, list: seq<int>)
      modifies this
      ensures partition == ResolveAll(broker, name, old(partition), list)
    {
      for k := 0 to |list|
        invariant partition == ResolveAll(broker, name, old(partition), list[..k])
      {
        var p := list[k];
        assert list[..k + 1][..k] == list[..k];
        var offset := At(partition, p);
        if offset == NEWEST {
          SetOffset(p, broker.offset(name, p, NEWEST));
        } else if offset == OLDEST {
          SetOffset(p, broker.offset(name, p, OLDEST));
        }
      }
      assert list[..|list|] == list;
    }

    /** The outer loop's body: resolved if the broker lists the partitions, left alone if it fails to. */
    method ResolveAgainst(broker: Broker)
      modifies this
      ensures partition == Resolved(broker, name, old(partition))
    {
      match broker.partitions(name) {
        case Partitions(list) => Query(broker, list);
        case Failed =>
      }
    }
  }

  /** A group's topics as values. */
  function Snapshot(topics: seq<Topic>): (ls: seq<Listed>)
    reads topics
    ensures |ls| == |topics| && forall i :: 0 <= i < |ls| ==> ls[i] == topics[i].Now()
  {
    if topics == [] then [] else Snapshot(topics[..|topics| - 1]) + [topics[|topics| - 1].Now()]
  }

  /** Resolution n times over; more than one pass matters only for a partition whose query answered a special offset. */
  function ResolvedTimes(broker: Broker, name: string, m: map<int, int>, n: nat): map<int, int> {
    if n == 0 then m else Resolved(broker, name, ResolvedTimes(broker, name, m, n - 1))
  }

  lemma {:induction false} TimesBounded(broker: Broker, name: string, m: map<int, int>, n: nat)
    requires Bounded(m)
    ensures Bounded(ResolvedTimes(broker, name, m, n))
    decreases n
  {
    if n > 0 {
      TimesBounded(broker, name, m, n - 1);
      ResolvedBounded(broker, name, ResolvedTimes(broker, name, m, n - 1));
    }
  }

  /** A topic with the first k of the list visited; `was` is what it held before. */
  ghost predicate Visited(broker: Broker, topics: seq<Topic>, k: nat, t: Topic, was: map<int, int>)
    requires k <= |topics|
    reads t
  {
    t.partition == ResolvedTimes(broker, t.name, was, multiset(topics[..k])[t])
  }

  lemma CountNext(topics: seq<Topic>, k: nat, t: Topic)
    requires k < |topics|
    ensures multiset(topics[..k + 1])[t] == multiset(topics[..k])[t] + if t == topics[k] then 1 else 0
  {
    assert topics[..k + 1] == topics[..k] + [topics[k]];
  }

  method VisitTopic(broker: Broker, topics: seq<Topic>, k: nat, ghost was: map<Topic, map<int, int>>)
    requires k < |topics| && forall t :: t in topics ==> t in was && Visited(broker, topics, k, t, was[t])
    modifies topics
    ensures forall t :: t in topics ==> Visited(broker, topics, k + 1, t, was[t])
  {
    topics[k].ResolveAgainst(broker);
    forall t | t in topics ensures Visited(broker, topics, k + 1, t, was[t]) { CountNext(topics, k, t); }
  }

  /** QueryTopics: every topic ends resolved as many times as it is listed; one whose partitions cannot be
      listed keeps its own offsets. */
  method QueryTopics(broker: Broker, topics: seq<Topic>)
    modifies topics
    ensures forall t :: t in topics ==>
      t.partition == ResolvedTimes(broker, t.name, old(t.partition), multiset(topics)[t])
    ensures forall t :: t in topics && old(Bounded(t.partition)) ==> Bounded(t.partition)
  {
    ghost var was: map<Topic, map<int, int>> := map t: Topic | t in topics :: t.partition;
    for k := 0 to |topics|
      invariant forall t :: t in topics ==> Visited(broker, topics, k, t, was[t])
    {
      VisitTopic(broker, topics, k, was);
    }
    assert topics[..|topics|] == topics;
    forall t | t in topics && Bounded(was[t]) ensures Bounded(t.partition) {
      TimesBounded(broker, t.name, was[t], multiset(topics)[t]);
    }
  }

  /** A consumer group session: what it claims, and the ResetOffset calls it received. */
  class Session {
    const claims: map<string, seq<int>>
    var resets: seq<Reset>

    constructor (claims: map<string, seq<int>>)
      ensures this.claims == claims && resets == []
    {
      this.claims, resets := claims, [];
    }
  }

  lemma Joined(a: seq<Reset>, b: seq<Reset>)
    requires OncePerPartition(a) && OncePerPartition(b)
    requires forall x, y :: x in a && y in b ==> x.topic != y.topic || x.partition != y.partition
    ensures OncePerPartition(a + b)
  {
    forall i, j | 0 <= i < j < |a + b|
      ensures (a + b)[i].topic != (a + b)[j].topic || (a + b)[i].partition != (a + b)[j].partition
    {
      if i < |a| <= j { assert (a + b)[i] in a && (a + b)[j] in b; }
    }
  }

  /** Nothing is due under a name that no earlier topic has. */
  lemma NameIsNew(ls: seq<Listed>, k: nat, claims: map<string, seq<int>>, r: Reset)
    requires k < |ls| && DistinctNames(ls) && r.topic == ls[k].name
    ensures !DueAmong(ls[..k], claims, r)
  {
  }

  /** What is due among the first k + 1 topics, when only those of one name are looked at. */
  lemma DueSnoc(ls: seq<Listed>, k: nat, claims: map<string, seq<int>>, r: Reset)
    requires k < |ls|
    ensures DueAmong(ls[..k + 1], claims, r) <==> DueAmong(ls[..k], claims, r) || Due(ls[k], claims, r)
  {
    assert ls[..k + 1][k] == ls[k];
    if DueAmong(ls[..k], claims, r) {
      var i :| 0 <= i < k && Due(ls[..k][i], claims, r);
      assert ls[..k + 1][i] == ls[..k][i];
    }
    if DueAmong(ls[..k + 1], claims, r) {
      var i :| 0 <= i < k + 1 && Due(ls[..k + 1][i], claims, r);
      assert i < k ==> ls[..k][i] == ls[..k + 1][i];
    }
  }

  /** `more` are exactly the resets due under the claimed names not in `left`, each once if names are distinct. */
  ghost predicate Covers(more: seq<Reset>, ls: seq<Listed>, claims: map<string, seq<int>>, left: set<string>) {
    && (forall r :: r in more <==> r.topic !in left && DueAmong(ls, claims, r))
    && (DistinctNames(ls) ==> OncePerPartition(more))
  }

  /** `more` are exactly the resets due under one name. */
  ghost predicate CoversName(more: seq<Reset>, ls: seq<Listed>, claims: map<string, seq<int>>, name: string) {
    && (forall r :: r in more <==> r.topic == name && DueAmong(ls, claims, r))
    && (DistinctNames(ls) ==> OncePerPartition(more))
  }

  /** `more` are exactly the resets due for one topic's partitions not in `left`, each once. */
  ghost predicate CoversTopic(more: seq<Reset>, l: Listed, claims: map<string, seq<int>>, left: set<int>) {
    && (forall r :: r in more <==> r.partition !in left && Due(l, claims, r))
    && OncePerPartition(more)
  }

  lemma Inhabited(s: set<int>)
    ensures s == {} || exists p :: p in s
  {
    if forall p :: p !in s { assert s == {}; }
  }

  lemma PartitionDone(more: seq<Reset>, next: seq<Reset>, l: Listed, claims: map<string, seq<int>>, left: set<int>, p: int)
    requires CoversTopic(more, l, claims, left) && p in left && p in l.partition && l.name in claims
    requires next == if p in claims[l.name] && l.partition[p] >= 0 then [Reset(l.name, p, l.partition[p])] else []
    ensures CoversTopic(more + next, l, claims, left - {p})
  {
    Joined(more, next);
    forall r ensures r in more + next <==> r.partition !in left - {p} && Due(l, claims, r) {
      assert r in more + next <==> r in more || r in next;
    }
  }

  lemma NameDone(more: seq<Reset>, next: seq<Reset>, ls: seq<Listed>, claims: map<string, seq<int>>,
                 left: set<string>, name: string)
    requires Covers(more, ls, claims, left) && name in left && CoversName(next, ls, claims, name)
    ensures Covers(more + next, ls, claims, left - {name})
  {
    if DistinctNames(ls) { Joined(more, next); }
    forall r ensures r in more + next <==> r.topic !in left - {name} && DueAmong(ls, claims, r) {
      assert r in more + next <==> r in more || r in next;
    }
  }

  /** The next listed topic, matched by name or passed over (`next` is then empty). */
  lemma TopicDone(more: seq<Reset>, next: seq<Reset>, ls: seq<Listed>, k: nat,
                  claims: map<string, seq<int>>, name: string)
    requires k < |ls| && CoversName(more, ls[..k], claims, name) && OncePerPartition(next)
    requires forall r :: r in next <==> ls[k].name == name && Due(ls[k], claims, r)
    ensures CoversName(more + next, ls[..k + 1], claims, name)
  {
    forall r ensures r in more + next <==> r.topic == name && DueAmong(ls[..k + 1], claims, r) {
      DueSnoc(ls, k, claims, r);
    }
    if DistinctNames(ls[..k + 1]) && next != [] {
      assert ls[..k + 1][k] == ls[k] && ls[..k] == ls[..k + 1][..k];
      if more != [] { assert next[0] in next && more[0] in more; NameIsNew(ls[..k + 1], k, claims, more[0]); }
      assert more + next == next;
    }
  }

  class GroupHandler {
    const topics: seq<Topic>
    /** sync.Once: the function has been run. */
    var once: bool

    constructor (topics: seq<Topic>)
      ensures this.topics == topics && !once
    {
      this.topics, once := topics, false;
    }

    /** One matching topic: its partitions, in any order. */
    method ResetTopic(session: Session, topic: Topic) returns (ghost more: seq<Reset>)
      requires topic.name in session.claims
      modifies session
      ensures session.resets == old(session.resets) + more && CoversTopic(more, topic.Now(), session.claims, {})
    {
      var partitions := session.claims[topic.name];
      var partition := topic.partition;
      var left := partition.Keys;
      more := [];
      while left != {}
        invariant left <= partition.Keys && partition == topic.partition
        invariant session.resets == old(session.resets) + more
        invariant CoversTopic(more, topic.Now(), session.claims, left)
        decreases left
      {
        Inhabited(left);
        var p :| p in left;
        var offset := partition[p];
        ghost var next := [];
        if p in partitions && offset >= 0 {
          next := [Reset(topic.name, p, offset)];
          session.resets := session.resets + [Reset(topic.name, p, offset)];
        }
        PartitionDone(more, next, topic.Now(), session.claims, left, p);
        left := left - {p};
        more := more + next;
      }
    }

    /** A topic of another name is passed over. */
    method ResetIfNamed(session: Session, topic: Topic, topicName: string) returns (ghost more: seq<Reset>)
      requires topicName in session.claims
      modifies session
      ensures session.resets == old(session.resets) + more && OncePerPartition(more)
      ensures forall r :: r in more <==> topic.name == topicName && Due(topic.Now(), session.claims, r)
    {
      more := [];
      if topic.name == topicName { more := ResetTopic(session, topic); }
    }

    /** One claimed topic name: the listed topics of that name, in order. */
    method ResetClaim(session: Session, topicName: string) returns (ghost more: seq<Reset>)
      requires topicName in session.claims
      modifies session
      ensures session.resets == old(session.resets) + more
      ensures CoversName(more, Snapshot(topics), session.claims, topicName)
    {
      ghost var ls := Snapshot(topics);
      more := [];
      for k := 0 to |topics|
        invariant ls == Snapshot(topics)
        invariant session.resets == old(session.resets) + more
        invariant CoversName(more, ls[..k], session.claims, topicName)
      {
        ghost var next := ResetIfNamed(session, topics[k], topicName);
        TopicDone(more, next, ls, k, session.claims, topicName);
        more := more + next;
      }
      assert ls[..|ls|] == ls;
    }

    /** Setup: in the first session the listed offsets of the claimed partitions are reset, each once;
        in later sessions nothing is. */
    method Setup(session: Session)
      modifies this, session
      ensures once
      ensures old(once) ==> session.resets == old(session.resets)
      ensures !old(once) ==>
        old(session.resets) <= session.resets &&
        Covers(session.resets[|old(session.resets)|..], Snapshot(topics), session.claims, {})
    {
      if !once {
        once := true;
        var _ := ResetClaims(session);
      }
    }

    /** The claimed topic names, in any order. */
    method ResetClaims(session: Session) returns (ghost more: seq<Reset>)
      modifies session
      ensures session.resets == old(session.resets) + more
      ensures Covers(more, Snapshot(topics), session.claims, {})
    {
      var left := session.claims.Keys;
      more := [];
      while left != {}
        invariant left <= session.claims.Keys
        invariant session.resets == old(session.resets) + more
        invariant Covers(more, Snapshot(topics), session.claims, left)
        decreases left
      {
        var name :| name in left;
        var next := ResetClaim(session, name);
        NameDone(more, next, Snapshot(topics), session.claims, left, name);
        left := left - {name};
        more := more + next;
      }
    }
  }

  /** The listed topics after resolution, each as often as it is listed. */
  function ResolvedTopics(broker: Broker, topics: seq<Topic>, ls: seq<Listed>): seq<Listed>
    requires |topics| == |ls|
  {
    seq(|ls|, i requires 0 <= i < |ls| =>
      ls[i].(partition := ResolvedTimes(broker, ls[i].name, ls[i].partition, multiset(topics)[topics[i]])))
  }

  /** With no topic object listed twice each is resolved once. */
  lemma DistinctResolvedOnce(broker: Broker, topics: seq<Topic>, ls: seq<Listed>, i: nat)
    requires Distinct(topics) && |topics| == |ls| && i < |ls|
    ensures ResolvedTopics(broker, topics, ls)[i] == ls[i].(partition := Resolved(broker, ls[i].name, ls[i].partition))
  {
    DistinctCount(topics, i);
    assert ResolvedTimes(broker, ls[i].name, ls[i].partition, 0) == ls[i].partition;
  }

  lemma DistinctCount(topics: seq<Topic>, i: nat)
    requires Distinct(topics) && i < |topics|
    ensures multiset(topics)[topics[i]] == 1
  {
    assert topics == topics[..i] + [topics[i]] + topics[i + 1..];
    assert topics[i] !in topics[..i] && topics[i] !in topics[i + 1..];
  }

  /** NewConsumerGroup, as far as offsets go. */
  method NewConsumerGroup(broker: Broker, topics: seq<Topic>)
    modifies topics
    ensures Snapshot(topics) == ResolvedTopics(broker, topics, old(Snapshot(topics)))
  {
    QueryTopics(broker, topics);
  }

  /** A new handler, then group.Consume in a loop, as far as Setup goes: the first session gets exactly the
      due resets, no later one any. */
  method Sessions(topics: seq<Topic>, sessions: seq<Session>, ghost ls: seq<Listed>)
    requires Distinct(sessions) && ls == Snapshot(topics)
    requires forall i :: 0 <= i < |sessions| ==> sessions[i].resets == []
    modifies sessions
    ensures sessions != [] ==> Covers(sessions[0].resets, ls, sessions[0].claims, {})
    ensures forall i :: 1 <= i < |sessions| ==> sessions[i].resets == []
  {
    var handler := new GroupHandler(topics);
    for k := 0 to |sessions|
      invariant handler.topics == topics && handler.once == (k > 0) && ls == Snapshot(topics)
      invariant k > 0 ==> Covers(sessions[0].resets, ls, sessions[0].claims, {})
      invariant forall i :: 0 <= i < |sessions| && (i >= k || i > 0) ==> sessions[i].resets == []
    {
      SetupNext(handler, sessions[k]);
    }
  }

  method SetupNext(handler: GroupHandler, session: Session)
    requires session.resets == []
    modifies handler, session
    ensures handler.once
    ensures old(handler.once) ==> session.resets == []
    ensures !old(handler.once) ==> Covers(session.resets, Snapshot(handler.topics), session.claims, {})
  {
    handler.Setup(session);
    assert session.resets[0..] == session.resets;
  }

  /** NewConsumerGroup and SyncSubscribe, as far as offsets go: the topics are resolved once, then Setup
      runs at the start of every session.  The first session's resets are exactly those due under the
      resolved offsets; no later session sees one. */
  method Subscribe(broker: Broker, topics: seq<Topic>, sessions: seq<Session>)
    requires Distinct(sessions)
    requires forall i :: 0 <= i < |sessions| ==> sessions[i].resets == []
    modifies topics, sessions
    ensures sessions != [] ==>
      Covers(sessions[0].resets, ResolvedTopics(broker, topics, old(Snapshot(topics))), sessions[0].claims, {})
    ensures forall i :: 1 <= i < |sessions| ==> sessions[i].resets == []
  {
    NewConsumerGroup(broker, topics);
    Sessions(topics, sessions, ResolvedTopics(broker, topics, old(Snapshot(topics))));
  }
}
