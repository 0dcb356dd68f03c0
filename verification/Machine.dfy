/** Runs of a machine given by a total step function.  An event whose goroutine is not at the
    point it names leaves the state alone, so the event sequences are exactly the interleavings. */
module Machine {

  /** State after the events of `log`, in order, from `s`. */
  function RunFrom<S, E>(step: (S, E) -> S, s: S, log: seq<E>): S
    decreases |log|
  {
    if log == [] then s else RunFrom(step, step(s, log[0]), log[1..])
  }

  lemma {:induction false} RunFromAppend<S, E>(step: (S, E) -> S, s: S, log: seq<E>, more: seq<E>)
    ensures RunFrom(step, s, log + more) == RunFrom(step, RunFrom(step, s, log), more)
    decreases |log|
  {
    if log == [] {
      assert log + more == more;
    } else {
      assert (log + more)[1..] == log[1..] + more;
      RunFromAppend(step, step(s, log[0]), log[1..], more);
    }
  }

  lemma RunSnoc<S, E>(step: (S, E) -> S, s: S, log: seq<E>, e: E)
    ensures RunFrom(step, s, log + [e]) == step(RunFrom(step, s, log), e)
  {
    RunFromAppend(step, s, log, [e]);
    assert [e][1..] == [];
  }

  lemma RunCons<S, E>(step: (S, E) -> S, s: S, e: E, log: seq<E>)
    ensures RunFrom(step, s, [e] + log) == RunFrom(step, step(s, e), log)
  {
    assert ([e] + log)[1..] == log;
  }

  /** Runs of three and four events, spelled out. */
  lemma RunThree<S, E>(step: (S, E) -> S, s: S, a: E, b: E, c: E)
    ensures RunFrom(step, s, [a, b, c]) == step(step(step(s, a), b), c)
  {
    assert [a, b, c] == [a] + [b, c] && [b, c] == [b] + [c] && [c] == [c] + [];
    RunCons(step, s, a, [b, c]);
    RunCons(step, step(s, a), b, [c]);
    RunCons(step, step(step(s, a), b), c, []);
  }

  lemma RunFour<S, E>(step: (S, E) -> S, s: S, a: E, b: E, c: E, d: E)
    ensures RunFrom(step, s, [a, b, c, d]) == step(step(step(step(s, a), b), c), d)
  {
    assert [a, b, c, d] == [a] + [b, c, d];
    RunCons(step, s, a, [b, c, d]);
    RunThree(step, step(s, a), b, c, d);
  }

  function Min(a: nat, b: nat): (m: nat)
    ensures m <= a && m <= b && (m == a || m == b)
  {
    if a <= b then a else b
  }

  // ---- one goroutine in the foreground ----

  /** The events of `es` that are not the foreground goroutine's own. */
  function Theirs<E>(mine: E -> bool, es: seq<E>): seq<E> {
    if es == [] then []
    else Theirs(mine, es[..|es| - 1]) + if mine(es[|es| - 1]) then [] else [es[|es| - 1]]
  }

  lemma TheirsSnoc<S, E>(step: (S, E) -> S, mine: E -> bool, s: S, es: seq<E>, i: nat)
    requires i < |es|
    ensures var before := RunFrom(step, s, Theirs(mine, es[..i]));
      RunFrom(step, s, Theirs(mine, es[..i + 1])) == if mine(es[i]) then before else step(before, es[i])
  {
    assert es[..i + 1][..i] == es[..i];
    if mine(es[i]) {
      assert Theirs(mine, es[..i]) + [] == Theirs(mine, es[..i]);
    } else {
      RunSnoc(step, s, Theirs(mine, es[..i]), es[i]);
    }
  }

  /** State after k turns of a schedule; a turn is whatever happens around one atomic step of the
      foreground goroutine, that step included. */
  function Trace<S, T>(advance: (S, T) -> S, base: S, sched: nat -> T, k: nat): S {
    if k == 0 then base else advance(Trace(advance, base, sched, k - 1), sched(k - 1))
  }

  /** If every turn is a sequence of events, a trace is a run. */
  lemma {:induction false} TraceIsRun<S(!new), T(!new), E>(step: (S, E) -> S, advance: (S, T) -> S, path: (S, T) -> seq<E>,
                                           base: S, sched: nat -> T, k: nat) returns (log: seq<E>)
    requires forall s, t :: advance(s, t) == RunFrom(step, s, path(s, t))
    ensures Trace(advance, base, sched, k) == RunFrom(step, base, log)
  {
    if k == 0 {
      log := [];
    } else {
      var before := TraceIsRun(step, advance, path, base, sched, k - 1);
      var s := Trace(advance, base, sched, k - 1);
      log := before + path(s, sched(k - 1));
      RunFromAppend(step, base, before, path(s, sched(k - 1)));
    }
  }
}
