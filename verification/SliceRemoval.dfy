/** RemoveTopic and RemoveServer of the RocketMQ configuration: deletion by append while ranging over
    the original slice.  The slice is its backing array and a length; the array is shared, so the
    range clause reads what the appends have already moved. */
module SliceRemoval {

  /** What the loop leaves: after a match the next element slides under the cursor and is not looked at. */
  function Survivors(list: seq<string>, topic: string): seq<string> {
    if list == [] then []
    else if list[0] != topic then [list[0]] + Survivors(list[1..], topic)
    else if |list| == 1 then []
    else [list[1]] + Survivors(list[2..], topic)
  }

  /** What the caller means: the list without the element, in order. */
  function Without(list: seq<string>, topic: string): seq<string> {
    if list == [] then []
    else (if list[0] == topic then [] else [list[0]]) + Without(list[1..], topic)
  }

  function Count(list: seq<string>, topic: string): nat {
    if list == [] then 0 else Count(list[..|list| - 1], topic) + if list[|list| - 1] == topic then 1 else 0
  }

  predicate NoAdjacentPair(list: seq<string>, topic: string) {
    forall i :: 0 <= i < |list| - 1 ==> list[i] != topic || list[i + 1] != topic
  }

  /** The second deletion of a list that ends in the element slices past its shortened end. */
  predicate Panics(list: seq<string>, topic: string) {
    list != [] && list[|list| - 1] == topic && Count(list, topic) >= 2
  }

  lemma {:induction false} CountPrefix(list: seq<string>, topic: string, k: nat)
    requires k <= |list|
    ensures Count(list[..k], topic) <= Count(list, topic)
    decreases |list|
  {
    if k < |list| {
      CountPrefix(list[..|list| - 1], topic, k);
      assert list[..|list| - 1][..k] == list[..k];
    } else {
      assert list[..k] == list;
    }
  }

  lemma CountSnoc(list: seq<string>, topic: string, k: nat)
    requires k < |list|
    ensures Count(list[..k + 1], topic) == Count(list[..k], topic) + if list[k] == topic then 1 else 0
  {
    assert list[..k + 1][..k] == list[..k];
  }

  // ---- exactly when the loop does what it is for ----

  lemma {:induction false} SurvivorsLength(list: seq<string>, topic: string)
    ensures |Without(list, topic)| <= |Survivors(list, topic)|
    decreases |list|
  {
    if list != [] {
      if list[0] != topic {
        SurvivorsLength(list[1..], topic);
      } else if |list| >= 2 {
        assert list[1..][1..] == list[2..];
        SurvivorsLength(list[2..], topic);
      }
    }
  }

  lemma {:induction false} SurvivorsExact(list: seq<string>, topic: string)
    ensures Survivors(list, topic) == Without(list, topic) <==> NoAdjacentPair(list, topic)
    decreases |list|
  {
    if list == [] {
    } else if list[0] != topic {
      SurvivorsExact(list[1..], topic);
      SameHead(list[0], Survivors(list[1..], topic), Without(list[1..], topic));
      HeadFree(list, topic);
    } else if |list| >= 2 {
      assert list[1..][1..] == list[2..];
      if list[1] == topic {
        SurvivorsLength(list[2..], topic);
        assert |Survivors(list, topic)| > |Without(list, topic)|;
      } else {
        SurvivorsExact(list[2..], topic);
        SameHead(list[1], Survivors(list[2..], topic), Without(list[2..], topic));
        HeadFree(list[1..], topic);
        PairAhead(list, topic);
      }
    }
  }

  lemma SameHead(x: string, a: seq<string>, b: seq<string>)
    ensures [x] + a == [x] + b <==> a == b
  {
    assert ([x] + a)[1..] == a && ([x] + b)[1..] == b;
  }

  lemma PairAhead(list: seq<string>, topic: string)
    requires |list| >= 2 && list[1] != topic
    ensures NoAdjacentPair(list, topic) <==> NoAdjacentPair(list[1..], topic)
  {
    if NoAdjacentPair(list[1..], topic) {
      forall i | 0 <= i < |list| - 1 ensures list[i] != topic || list[i + 1] != topic {
        if i > 0 { assert list[1..][i - 1] == list[i] && list[1..][i] == list[i + 1]; }
      }
    }
    if NoAdjacentPair(list, topic) {
      forall i | 0 <= i < |list| - 2 ensures list[1..][i] != topic || list[1..][i + 1] != topic {
        assert list[1..][i] == list[i + 1] && list[1..][i + 1] == list[i + 2];
      }
    }
  }

  lemma HeadFree(list: seq<string>, topic: string)
    requires list != [] && list[0] != topic
    ensures NoAdjacentPair(list, topic) <==> NoAdjacentPair(list[1..], topic)
  {
    if NoAdjacentPair(list[1..], topic) {
      forall i | 0 <= i < |list| - 1 ensures list[i] != topic || list[i + 1] != topic {
        if i > 0 { assert list[1..][i - 1] == list[i] && list[1..][i] == list[i + 1]; }
      }
    }
    if NoAdjacentPair(list, topic) {
      forall i | 0 <= i < |list| - 2 ensures list[1..][i] != topic || list[1..][i + 1] != topic {
        assert list[1..][i] == list[i + 1] && list[1..][i + 1] == list[i + 2];
      }
    }
  }

  lemma PairCountsTwice(list: seq<string>, topic: string, i: nat)
    requires i + 1 < |list| && list[i] == topic && list[i + 1] == topic
    ensures Count(list, topic) >= 2
  {
    CountSnoc(list, topic, i);
    CountSnoc(list, topic, i + 1);
    CountPrefix(list, topic, i + 2);
  }

  lemma OnceMeansNoPair(list: seq<string>, topic: string)
    requires Count(list, topic) <= 1
    ensures NoAdjacentPair(list, topic)
  {
    forall i | 0 <= i < |list| - 1 ensures list[i] != topic || list[i + 1] != topic {
      if list[i] == topic && list[i + 1] == topic { PairCountsTwice(list, topic, i); }
    }
  }

  /** The loop removes exactly the element without slicing out of range, if and only if the element
      occurs at most once, or it does not end the list and never occurs twice in a row. */
  lemma RemovalIsExactIff(list: seq<string>, topic: string)
    ensures !Panics(list, topic) && Survivors(list, topic) == Without(list, topic)
            <==> Count(list, topic) <= 1 || (list[|list| - 1] != topic && NoAdjacentPair(list, topic))
  {
    SurvivorsExact(list, topic);
    if Count(list, topic) <= 1 { OnceMeansNoPair(list, topic); }
  }

  /** Two occurrences: at the end of the list the second deletion slices out of range, and of a pair
      further in one occurrence survives. */
  lemma RemovalCanFail()
    ensures Panics(["a", "a"], "a")
    ensures Survivors(["a", "a", "b"], "a") == ["a", "b"] && Without(["a", "a", "b"], "a") == ["b"]
  {
    CountSnoc(["a", "a"], "a", 0);
    CountSnoc(["a", "a"], "a", 1);
    assert ["a", "a"][..2] == ["a", "a"];
    assert ["a", "a", "b"][2..] == ["b"] && ["a", "a", "b"][1..] == ["a", "b"] && ["a", "b"][1..] == ["b"];
  }

  // ---- the loop ----

  /** The configuration object: Topics (or Servers) is backing[..length]. */
  class Config {
    var backing: array<string>
    var length: nat

    predicate Valid()
      reads this
    {
      length <= backing.Length
    }

    constructor (backing: array<string>, length: nat)
      requires length <= backing.Length
      ensures Valid() && this.backing == backing && this.length == length
    {
      this.backing, this.length := backing, length;
    }

    /** append(list[:i], list[i+1:]...): moves the tail down in place. */
    method DeleteAt(i: nat)
      requires Valid() && i < length
      modifies this`length, backing
      ensures Valid() && length == old(length) - 1
      ensures Shifted(old(backing[..]), backing[..], i, old(length))
    {
      forall k | i <= k < length - 1 { backing[k] := backing[k + 1]; }
      length := length - 1;
    }

    /** One turn of the range clause. */
    method Visit(i: nat, topic: string, ghost list: seq<string>) returns (panicked: bool)
      requires Progress(backing[..], length, i, list, topic) && i < |list|
      modifies this`length, backing
      ensures panicked ==> Panics(list, topic)
      ensures !panicked ==> Progress(backing[..], length, i + 1, list, topic)
      ensures length <= |list| <= backing.Length && backing[|list|..] == old(backing[|list|..])
    {
      ghost var before := backing[..];
      var v := backing[i];
      if v == topic {
        if i + 1 > length {
          PastEnd(before, length, i, list, topic);
          return true;
        }
        DeleteAt(i);
        BeyondLength(before, backing[..], i, length + 1, |list|);
        Deleted(before, backing[..], length + 1, i, list, topic);
        assert backing[|list|..] == backing[..][|list|..];
      } else {
        Kept(before, length, i, list, topic);
      }
      return false;
    }

    /** RemoveTopic and RemoveServer.  `panicked`: a slice expression was out of range. */
    method Remove(topic: string) returns (panicked: bool)
      requires Valid()
      modifies this`length, backing
      ensures Valid()
      ensures panicked == Panics(old(backing[..length]), topic)
      ensures !panicked ==> backing[..length] == Survivors(old(backing[..length]), topic)
      ensures backing[old(length)..] == old(backing[length..])
    {
      ghost var list := backing[..length];
      var n := length;
      var i := 0;
      panicked := false;
      Starts(backing[..], list, topic);
      while i < n && !panicked
        invariant length <= n == |list| <= backing.Length && i <= n
        invariant !panicked ==> Progress(backing[..], length, i, list, topic)
        invariant panicked ==> Panics(list, topic)
        invariant backing[n..] == old(backing[n..])
        decreases n - i
      {
        panicked := Visit(i, topic, list);
        i := i + 1;
      }
      if !panicked {
        Finished(backing[..], length, list, topic);
        assert backing[..][..length] == backing[..length];
      }
    }
  }

  /** Cursor inside the shortened list: what is behind it is settled, what is ahead is the unread rest
      of the original, shifted down by the number of deletions so far. */
  ghost predicate Ahead(a: seq<string>, length: nat, i: nat, list: seq<string>, topic: string) {
    && i <= length <= |list| <= |a|
    && var q := i + (|list| - length);
    && a[i..length] == list[q..]
    && a[..i] + Survivors(list[q..], topic) == Survivors(list, topic)
    && (length == |list| ==> Count(list[..i], topic) == 0)
    && (length < |list| ==> Count(list[..q - 1], topic) >= |list| - length)
  }

  /** Cursor past the shortened list: only leftovers of the last element are read from here on. */
  ghost predicate Behind(a: seq<string>, length: nat, i: nat, list: seq<string>, topic: string) {
    && length < i <= |list| <= |a|
    && a[..length] == Survivors(list, topic)
    && (list[|list| - 1] == topic ==>
          i == length + 1 && Count(list, topic) >= |list| - length && (length == |list| - 1 ==> Count(list, topic) == 1))
  }

  ghost predicate Progress(a: seq<string>, length: nat, i: nat, list: seq<string>, topic: string) {
    && length <= |list| <= |a|
    && (forall k :: length <= k < |list| ==> a[k] == list[|list| - 1])
    && if i <= length then Ahead(a, length, i, list, topic) else Behind(a, length, i, list, topic)
  }

  lemma Starts(a: seq<string>, list: seq<string>, topic: string)
    requires list <= a
    ensures Progress(a, |list|, 0, list, topic)
  {
    assert list[0..] == list && a[..0] + Survivors(list, topic) == Survivors(list, topic);
  }

  lemma Kept(a: seq<string>, length: nat, i: nat, list: seq<string>, topic: string)
    requires Progress(a, length, i, list, topic) && i < |list| && a[i] != topic
    ensures Progress(a, length, i + 1, list, topic)
  {
    if i < length {
      KeptAhead(a, length, i, list, topic);
      CountSnoc(list, topic, if length == |list| then i else i + (|list| - length) - 1);
    } else if i == length {
      assert list[i + (|list| - length)..] == [];
      assert a[..i] + [] == a[..i];
    }
  }

  lemma KeptAhead(a: seq<string>, length: nat, i: nat, list: seq<string>, topic: string)
    requires Ahead(a, length, i, list, topic) && i < length && a[i] != topic
    ensures var q := i + (|list| - length);
      && list[q] == a[i] && a[i + 1..length] == list[q + 1..]
      && a[..i + 1] + Survivors(list[q + 1..], topic) == Survivors(list, topic)
  {
    var q := i + (|list| - length);
    var rest := Survivors(list[q + 1..], topic);
    assert list[q..][0] == a[i..length][0] == a[i];
    assert list[q..][1..] == list[q + 1..];
    assert a[..i + 1] == a[..i] + [a[i]];
    assert a[..i] + ([a[i]] + rest) == a[..i + 1] + rest;
    assert a[i + 1..length] == a[i..length][1..];
  }

  /** What append(list[:i], list[i+1:]...) leaves in the backing array. */
  ghost predicate Shifted(a: seq<string>, b: seq<string>, i: nat, length: nat) {
    && i < length <= |a| == |b|
    && b == a[..i] + a[i + 1..length] + a[length - 1..]
  }

  lemma BeyondLength(a: seq<string>, b: seq<string>, i: nat, length: nat, n: nat)
    requires Shifted(a, b, i, length) && length <= n <= |a|
    ensures b[n..] == a[n..] && b[..i] == a[..i]
    ensures forall k :: length - 1 <= k < n ==> b[k] == a[k]
  {
  }

  lemma Deleted(a: seq<string>, b: seq<string>, length: nat, i: nat, list: seq<string>, topic: string)
    requires Progress(a, length, i, list, topic) && Shifted(a, b, i, length) && a[i] == topic
    ensures Progress(b, length - 1, i + 1, list, topic)
  {
    var q := i + (|list| - length);
    assert list[q..][0] == a[i..length][0] == a[i];
    assert list[q..][length - 1 - i] == a[i..length][length - 1 - i] == a[length - 1];
    BeyondLength(a, b, i, length, |list|);
    CountSnoc(list, topic, q);
    if length < |list| { CountSnoc(list, topic, q - 1); }
    if i + 1 < length {
      DeletedAhead(a, b, length, i, list, topic);
    } else {
      assert list[q..] == [topic] && list[..q + 1] == list;
      assert a[..i] + [] == a[..i] == b[..i];
    }
  }

  lemma DeletedAhead(a: seq<string>, b: seq<string>, length: nat, i: nat, list: seq<string>, topic: string)
    requires Progress(a, length, i, list, topic) && Shifted(a, b, i, length)
    requires i + 1 < length && a[i] == topic
    ensures var q := i + (|list| - length);
      && b[i + 1..length - 1] == list[q + 2..]
      && b[..i + 1] + Survivors(list[q + 2..], topic) == Survivors(list, topic)
  {
    var q := i + (|list| - length);
    var rest := Survivors(list[q + 2..], topic);
    assert list[q..][0] == a[i..length][0] == a[i] && list[q..][1] == a[i..length][1] == b[i];
    assert list[q..][2..] == list[q + 2..];
    BeyondLength(a, b, i, length, |a|);
    assert b[..i + 1] == b[..i] + [b[i]];
    assert a[..i] + ([b[i]] + rest) == b[..i + 1] + rest;
    assert b[i + 1..length - 1] == a[i..length][2..];
  }

  lemma PastEnd(a: seq<string>, length: nat, i: nat, list: seq<string>, topic: string)
    requires Progress(a, length, i, list, topic) && length <= i < |list| && a[i] == topic
    ensures Panics(list, topic)
  {
    CountSnoc(list, topic, |list| - 1);
    assert list[..|list|] == list;
  }

  lemma Finished(a: seq<string>, length: nat, list: seq<string>, topic: string)
    requires Progress(a, length, |list|, list, topic)
    ensures !Panics(list, topic) && a[..length] == Survivors(list, topic)
  {
    if |list| <= length {
      assert list[|list|..] == [] && list[..|list|] == list;
      assert a[..length] + [] == a[..length];
    }
  }
}
