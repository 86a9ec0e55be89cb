/** Sequence vocabulary shared by the model: element-wise map, concatenation
    of a list of lists, sums and means over reals, and Python's `range`. */
module Seqs {

  /** Applies `f` to every element, keeping positions. */
  function Map<T, U>(f: T -> U, s: seq<T>): (r: seq<U>)
    ensures |r| == |s|
    ensures forall i :: 0 <= i < |s| ==> r[i] == f(s[i])
  {
    seq(|s|, i requires 0 <= i < |s| => f(s[i]))
  }

  lemma MapAppend<T, U>(f: T -> U, a: seq<T>, b: seq<T>)
    ensures Map(f, a + b) == Map(f, a) + Map(f, b)
  {
  }

  /** Removing the element at position `i` removes one occurrence of it. */
  lemma RemoveAt<T>(b: seq<T>, i: nat)
    requires i < |b|
    ensures b == b[..i] + [b[i]] + b[i + 1..]
    ensures multiset(b[..i] + b[i + 1..]) == multiset(b) - multiset{b[i]}
  {
    var front, back := b[..i], b[i + 1..];
    assert b == front + [b[i]] + back;
    assert multiset(b) == multiset(front) + multiset{b[i]} + multiset(back);
  }

  /** Removing the last element removes one occurrence of it. */
  lemma RemoveLast<T>(a: seq<T>)
    requires a != []
    ensures multiset(a[..|a| - 1]) == multiset(a) - multiset{a[|a| - 1]}
  {
    assert a == a[..|a| - 1] + [a[|a| - 1]];
  }

  /** Splits a permutation: the last element of `a` sits at some position `i`
      of `b`, and what remains of the two is again a permutation. */
  lemma SplitPermutation<T>(a: seq<T>, b: seq<T>) returns (i: nat)
    requires multiset(a) == multiset(b)
    requires a != []
    ensures i < |b| && b[i] == a[|a| - 1]
    ensures b == b[..i] + [b[i]] + b[i + 1..]
    ensures multiset(a[..|a| - 1]) == multiset(b[..i] + b[i + 1..])
  {
    var x := a[|a| - 1];
    assert x in multiset(a) by {
      assert a[|a| - 1] in a;
    }
    i :| 0 <= i < |b| && b[i] == x;
    RemoveLast(a);
    RemoveAt(b, i);
  }

  /** Mapping a permutation of `a` gives a permutation of the mapped `a`. */
  lemma {:induction false} MapPermutation<T, U>(f: T -> U, a: seq<T>, b: seq<T>)
    requires multiset(a) == multiset(b)
    ensures multiset(Map(f, a)) == multiset(Map(f, b))
    decreases |a|
  {
    if a == [] {
      assert |b| == |multiset(b)| == 0;
    } else {
      var i := SplitPermutation(a, b);
      var a', x := a[..|a| - 1], a[|a| - 1];
      MapPermutation(f, a', b[..i] + b[i + 1..]);
      assert a == a' + [x];
      MapAppend(f, a', [x]);
      MapAppend(f, b[..i] + [x], b[i + 1..]);
      MapAppend(f, b[..i], [x]);
      MapAppend(f, b[..i], b[i + 1..]);
    }
  }

  /** The concatenation of a list of lists, in order (`list.extend` applied
      once per inner list). */
  function Flatten<T>(ss: seq<seq<T>>): seq<T>
  {
    if ss == [] then [] else Flatten(ss[..|ss| - 1]) + ss[|ss| - 1]
  }

  lemma {:induction false} FlattenAppend<T>(a: seq<seq<T>>, b: seq<seq<T>>)
    ensures Flatten(a + b) == Flatten(a) + Flatten(b)
    decreases |b|
  {
    if b == [] {
      assert a + b == a;
    } else {
      var b', x := b[..|b| - 1], b[|b| - 1];
      assert b == b' + [x];
      assert a + b == (a + b') + [x];
      FlattenAppend(a, b');
      FlattenSnoc(a + b', x);
      FlattenSnoc(b', x);
    }
  }

  /** Appending one more list to a list of lists appends its elements. */
  lemma FlattenSnoc<T>(a: seq<seq<T>>, x: seq<T>)
    ensures Flatten(a + [x]) == Flatten(a) + x
  {
    assert (a + [x])[..|a + [x]| - 1] == a;
  }

  /** Concatenating the lists in another order gives the same elements. */
  lemma {:induction false} FlattenPermutation<T>(a: seq<seq<T>>, b: seq<seq<T>>)
    requires multiset(a) == multiset(b)
    ensures multiset(Flatten(a)) == multiset(Flatten(b))
    decreases |a|
  {
    if a == [] {
      assert |b| == |multiset(b)| == 0;
    } else {
      var i := SplitPermutation(a, b);
      var a', x := a[..|a| - 1], a[|a| - 1];
      assert a == a' + [x];
      FlattenPermutation(a', b[..i] + b[i + 1..]);
      FlattenAppend(b[..i] + [x], b[i + 1..]);
      FlattenAppend(b[..i], [x]);
      FlattenAppend(b[..i], b[i + 1..]);
      assert Flatten([x]) == x by {
        assert [x][..0] == [];
      }
    }
  }

  /** Extending one of the lists adds the extension's elements to the concatenation. */
  lemma {:induction false} FlattenUpdate<T>(ss: seq<seq<T>>, p: nat, e: seq<T>)
    requires p < |ss|
    ensures multiset(Flatten(ss[p := ss[p] + e])) == multiset(Flatten(ss)) + multiset(e)
    decreases |ss|
  {
    var last := |ss| - 1;
    var updated := ss[p := ss[p] + e];
    if p < last {
      assert updated[..last] == ss[..last][p := ss[p] + e];
      FlattenUpdate(ss[..last], p, e);
    } else {
      assert updated[..last] == ss[..last];
    }
  }

  /** Lists that all have length `len` concatenate to `|ss| * len` elements. */
  lemma {:induction false} FlattenUniformLength<T>(ss: seq<seq<T>>, len: nat)
    requires forall i :: 0 <= i < |ss| ==> |ss[i]| == len
    ensures |Flatten(ss)| == |ss| * len
    decreases |ss|
  {
    if ss != [] {
      FlattenUniformLength(ss[..|ss| - 1], len);
      MulSucc(|ss| - 1, len);
    }
  }

  /** Concatenating empty lists gives the empty list. */
  lemma {:induction false} FlattenEmpties<T>(ss: seq<seq<T>>)
    requires forall i :: 0 <= i < |ss| ==> ss[i] == []
    ensures Flatten(ss) == []
    decreases |ss|
  {
    if ss != [] {
      FlattenEmpties(ss[..|ss| - 1]);
    }
  }

  ghost predicate NonNegative(s: seq<real>)
  {
    forall i :: 0 <= i < |s| ==> s[i] >= 0.0
  }

  lemma {:induction false} FlattenNonNegative(ss: seq<seq<real>>)
    requires forall i :: 0 <= i < |ss| ==> NonNegative(ss[i])
    ensures NonNegative(Flatten(ss))
    decreases |ss|
  {
    if ss != [] {
      FlattenNonNegative(ss[..|ss| - 1]);
    }
  }

  /** Python's built-in `sum` over reals. */
  function Sum(s: seq<real>): real
  {
    if s == [] then 0.0 else Sum(s[..|s| - 1]) + s[|s| - 1]
  }

  lemma {:induction false} SumAppend(a: seq<real>, b: seq<real>)
    ensures Sum(a + b) == Sum(a) + Sum(b)
    decreases |b|
  {
    if b == [] {
      assert a + b == a;
    } else {
      var b' := b[..|b| - 1];
      assert (a + b)[..|a + b| - 1] == a + b';
      SumAppend(a, b');
    }
  }

  /** Over reals the sum does not depend on the order of the summands. */
  lemma {:induction false} SumPermutation(a: seq<real>, b: seq<real>)
    requires multiset(a) == multiset(b)
    ensures Sum(a) == Sum(b)
    decreases |a|
  {
    if a == [] {
      assert |b| == |multiset(b)| == 0;
    } else {
      var i := SplitPermutation(a, b);
      var a', x := a[..|a| - 1], a[|a| - 1];
      assert a == a' + [x];
      SumPermutation(a', b[..i] + b[i + 1..]);
      SumAppend(b[..i] + [x], b[i + 1..]);
      SumAppend(b[..i], [x]);
      SumAppend(b[..i], b[i + 1..]);
      assert Sum([x]) == x by {
        assert [x][..0] == [];
      }
    }
  }

  lemma {:induction false} SumNonNegative(s: seq<real>)
    requires NonNegative(s)
    ensures Sum(s) >= 0.0
    decreases |s|
  {
    if s != [] {
      SumNonNegative(s[..|s| - 1]);
    }
  }

  /** `sum(s) / len(s) if s else 0`. */
  function Average(s: seq<real>): real
  {
    if |s| == 0 then 0.0 else Sum(s) / (|s| as real)
  }

  /** The mean depends only on which values were collected, not on their order. */
  lemma AveragePermutation(a: seq<real>, b: seq<real>)
    requires multiset(a) == multiset(b)
    ensures Average(a) == Average(b)
  {
    assert |a| == |multiset(a)| == |multiset(b)| == |b|;
    SumPermutation(a, b);
  }

  /** A mean of non-negative values is non-negative. */
  lemma AverageNonNegative(s: seq<real>)
    requires NonNegative(s)
    ensures Average(s) >= 0.0
  {
    SumNonNegative(s);
  }

  /** Python's `range(start, stop, step)` for a non-zero step (a zero step
      raises in Python; callers model that error themselves). */
  function Range(start: int, stop: int, step: int): seq<int>
    requires step != 0
    decreases if step > 0 then stop - start else start - stop
  {
    if (step > 0 && start < stop) || (step < 0 && start > stop) then
      [start] + Range(start + step, stop, step)
    else
      []
  }

  /** With a positive step, `range` lists `start, start + step, ...` while the
      values stay below `stop`, and the next value would reach `stop`. */
  lemma {:induction false} RangeAscending(start: int, stop: int, step: int)
    requires step > 0
    ensures forall k :: 0 <= k < |Range(start, stop, step)| ==>
      Range(start, stop, step)[k] == start + k * step && Range(start, stop, step)[k] < stop
    ensures start + |Range(start, stop, step)| * step >= stop
    decreases stop - start
  {
    var r := Range(start, stop, step);
    if start < stop {
      var tail := Range(start + step, stop, step);
      RangeAscending(start + step, stop, step);
      assert r == [start] + tail;
      forall k | 0 < k < |r|
        ensures r[k] == start + k * step
      {
        MulSucc(k - 1, step);
        assert r[k] == tail[k - 1] == start + step + (k - 1) * step;
      }
      MulSucc(|tail|, step);
    }
  }

  /** `start, start + 1, ..., start + n - 1`. */
  function Consecutive(start: int, n: nat): (r: seq<int>)
    ensures |r| == n
    ensures forall k :: 0 <= k < n ==> r[k] == start + k
  {
    seq(n, k requires 0 <= k < n => start + k)
  }

  /** `(a + 1) * b == a * b + b`, for steps of a running product. */
  lemma MulSucc(a: int, b: int)
    ensures (a + 1) * b == a * b + b
  {
  }

  /** `0, 1, ..., n - 1`: the positions of a list of length `n`. */
  function Indices(n: nat): (r: seq<int>)
    ensures |r| == n
    ensures forall i :: 0 <= i < n ==> r[i] == i
  {
    seq(n, i requires 0 <= i < n => i)
  }

  /** `order` lists every position of an `n`-element list exactly once. */
  ghost predicate IsOrdering(order: seq<int>, n: nat)
  {
    multiset(order) == multiset(Indices(n))
  }

  lemma OrderingInBounds(order: seq<int>, n: nat, k: int)
    requires IsOrdering(order, n)
    requires 0 <= k < |order|
    ensures 0 <= order[k] < n
    ensures |order| == n
  {
    assert order[k] in multiset(order);
    assert order[k] in Indices(n);
    assert |order| == |multiset(order)| == |multiset(Indices(n))| == n;
  }
}
