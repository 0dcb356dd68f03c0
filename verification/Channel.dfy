/** The reference the retrying pipes are measured against: a FIFO channel with one
    slot and at-least-once delivery.  The head of the backlog is put on the wire one
    or more times and is then confirmed; nothing overtakes it. */
module Channel {

  /** `attempts` is `base` in order, with every element repeated one or more times. */
  ghost predicate Stutters<T>(attempts: seq<T>, base: seq<T>)
    decreases |attempts|
  {
    if attempts == [] then base == []
    else
      && base != []
      && attempts[|attempts| - 1] == base[|base| - 1]
      && (Stutters(attempts[..|attempts| - 1], base)
          || Stutters(attempts[..|attempts| - 1], base[..|base| - 1]))
  }

  /** `base` with element i written counts[i] times. */
  ghost function Repeat<T>(base: seq<T>, counts: seq<nat>): seq<T>
    requires |base| == |counts|
  {
    if base == [] then []
    else Repeat(base[..|base| - 1], counts[..|counts| - 1])
         + seq(counts[|counts| - 1], _ => base[|base| - 1])
  }

  ghost predicate AllPositive(counts: seq<nat>) {
    forall i :: 0 <= i < |counts| ==> counts[i] >= 1
  }

  /** Stutters says exactly that `attempts` is `base` with positive repeat counts. */
  lemma StuttersIffRepeats<T>(attempts: seq<T>, base: seq<T>)
    ensures Stutters(attempts, base)
            <==> exists counts: seq<nat> :: |counts| == |base| && AllPositive(counts) && attempts == Repeat(base, counts)
  {
    if Stutters(attempts, base) {
      var counts := CountsOf(attempts, base);
    }
    forall counts: seq<nat> | |counts| == |base| && AllPositive(counts) && attempts == Repeat(base, counts)
      ensures Stutters(attempts, base)
    {
      RepeatStutters(base, counts);
    }
  }

  /** The last element once more. */
  lemma RepeatAgain<T>(base: seq<T>, counts: seq<nat>)
    requires |base| == |counts| && base != []
    ensures var n := |base| - 1;
      Repeat(base, counts[n := counts[n] + 1]) == Repeat(base, counts) + [base[n]]
  {
    var n := |base| - 1;
    var k, last := counts[n], base[n];
    assert counts[n := k + 1][..n] == counts[..n];
    assert seq(k + 1, _ => last) == seq(k, _ => last) + [last];
  }

  /** A further element, once. */
  lemma RepeatNext<T>(base: seq<T>, counts: seq<nat>)
    requires |base| == |counts| + 1
    ensures Repeat(base, counts + [1]) == Repeat(base[..|counts|], counts) + [base[|counts|]]
  {
    assert (counts + [1])[..|counts|] == counts;
    assert seq(1, _ => base[|counts|]) == [base[|counts|]];
  }

  lemma {:induction false} CountsOf<T>(attempts: seq<T>, base: seq<T>) returns (counts: seq<nat>)
    requires Stutters(attempts, base)
    ensures |counts| == |base| && AllPositive(counts) && attempts == Repeat(base, counts)
    decreases |attempts|
  {
    if attempts == [] {
      counts := [];
    } else {
      var before, n := attempts[..|attempts| - 1], |base| - 1;
      assert attempts == before + [base[n]];
      if Stutters(before, base) {
        var c := CountsOf(before, base);
        RepeatAgain(base, c);
        counts := c[n := c[n] + 1];
      } else {
        var c := CountsOf(before, base[..n]);
        RepeatNext(base, c);
        counts := c + [1];
      }
    }
  }

  lemma {:induction false} RepeatStutters<T>(base: seq<T>, counts: seq<nat>)
    requires |base| == |counts| && AllPositive(counts)
    ensures Stutters(Repeat(base, counts), base)
    decreases |base|, if counts == [] then 0 else counts[|counts| - 1]
  {
    if base != [] {
      var n, last := |base| - 1, base[|base| - 1];
      var k := counts[n];
      var all := Repeat(base, counts);
      if k == 1 {
        RepeatStutters(base[..n], counts[..n]);
        assert all == Repeat(base[..n], counts[..n]) + [last];
        assert all[..|all| - 1] == Repeat(base[..n], counts[..n]);
      } else {
        var fewer := counts[n := k - 1];
        RepeatStutters(base, fewer);
        assert fewer[..n] == counts[..n];
        assert all == Repeat(base, fewer) + [last];
        assert all[..|all| - 1] == Repeat(base, fewer);
      }
    }
  }

  lemma StutterAgain<T>(attempts: seq<T>, base: seq<T>)
    requires base != [] && Stutters(attempts, base)
    ensures Stutters(attempts + [base[|base| - 1]], base)
  {
    assert (attempts + [base[|base| - 1]])[..|attempts|] == attempts;
  }

  lemma StutterNext<T>(attempts: seq<T>, base: seq<T>, x: T)
    requires Stutters(attempts, base)
    ensures Stutters(attempts + [x], base + [x])
  {
    assert (attempts + [x])[..|attempts|] == attempts;
    assert (base + [x])[..|base|] == base;
  }

  /** Everything in the base was attempted. */
  lemma {:induction false} StuttersCovers<T>(attempts: seq<T>, base: seq<T>, i: nat)
    requires Stutters(attempts, base) && i < |base|
    ensures base[i] in attempts
    decreases |attempts|
  {
    var before := attempts[..|attempts| - 1];
    if i < |base| - 1 {
      if Stutters(before, base) {
        StuttersCovers(before, base, i);
      } else {
        StuttersCovers(before, base[..|base| - 1], i);
      }
    }
  }

  /** One-slot FIFO channel.  `tried` says that the head of the backlog is on the wire. */
  datatype Chan<T> = Chan(accepted: seq<T>, backlog: seq<T>, tried: bool, wire: seq<T>, confirmed: seq<T>)

  ghost predicate Accepts<T(!new)>(c: Chan<T>, c': Chan<T>) {
    exists x :: c' == c.(accepted := c.accepted + [x], backlog := c.backlog + [x])
  }

  ghost predicate Attempts<T>(c: Chan<T>, c': Chan<T>) {
    c.backlog != [] && c' == c.(tried := true, wire := c.wire + [c.backlog[0]])
  }

  ghost predicate Confirms<T>(c: Chan<T>, c': Chan<T>) {
    && c.tried && c.backlog != []
    && c' == c.(tried := false, backlog := c.backlog[1..], confirmed := c.confirmed + [c.backlog[0]])
  }

  ghost predicate Next<T(!new)>(c: Chan<T>, c': Chan<T>) {
    c' == c || Accepts(c, c') || Attempts(c, c') || Confirms(c, c')
  }

  /** What the channel promises in every state. */
  ghost predicate Sound<T>(c: Chan<T>) {
    && c.accepted == c.confirmed + c.backlog
    && (c.tried ==> c.backlog != [])
    && Stutters(c.wire, c.confirmed + (if c.tried then [c.backlog[0]] else []))
  }

  lemma NextKeepsSound<T(!new)>(c: Chan<T>, c': Chan<T>)
    requires Sound(c) && Next(c, c')
    ensures Sound(c')
  {
    if c' != c {
      if Accepts(c, c') {
        var x :| c' == c.(accepted := c.accepted + [x], backlog := c.backlog + [x]);
      } else if Attempts(c, c') {
        if c.tried {
          StutterAgain(c.wire, c.confirmed + [c.backlog[0]]);
        } else {
          assert c.confirmed + [] == c.confirmed;
          StutterNext(c.wire, c.confirmed, c.backlog[0]);
        }
      } else {
        assert c'.confirmed + [] == c'.confirmed;
        assert c.backlog == [c.backlog[0]] + c.backlog[1..];
      }
    }
  }
}
