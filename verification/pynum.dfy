/**
 * The few pieces of Python's numeric and sequence semantics that the rest of
 * the model relies on: bytes, round(), int(), slicing, max/min, and the
 * exceptions the modelled code can raise.
 */
module PyNum {

  /** One byte of a Python `bytes` object. */
  newtype byte = x: int | 0 <= x < 256

  /** The Python exceptions the modelled operations can raise. */
  datatype PyError = ZeroDivisionError | ValueError | IndexError

  datatype Option<T> = None | Some(value: T)

  datatype Result<T> = Success(value: T) | Failure(error: PyError)

  function Min(a: int, b: int): (r: int)
    ensures r <= a && r <= b && (r == a || r == b)
  {
    if a <= b then a else b
  }

  function Max(a: int, b: int): (r: int)
    ensures r >= a && r >= b && (r == a || r == b)
  {
    if a >= b then a else b
  }

  /** Python's `max(a, b)` on floats (returns `a` when they are equal). */
  function MaxReal(a: real, b: real): (r: real)
    ensures r >= a && r >= b && (r == a || r == b)
  {
    if b > a then b else a
  }

  /** Python's `min(a, b)` on floats (returns `a` when they are equal). */
  function MinReal(a: real, b: real): (r: real)
    ensures r <= a && r <= b && (r == a || r == b)
  {
    if b < a then b else a
  }

  function AbsReal(x: real): real
  {
    if x < 0.0 then -x else x
  }

  /**
   * Python's one-argument `round(x)`: the nearest integer, and on an exact
   * half the even neighbour.
   */
  function RoundHalfEven(x: real): (r: int)
    ensures AbsReal(r as real - x) <= 0.5
    ensures AbsReal(r as real - x) == 0.5 ==> r % 2 == 0
  {
    var f := x.Floor;
    var d := x - f as real;
    if d < 0.5 then f
    else if d > 0.5 then f + 1
    else if f % 2 == 0 then f
    else f + 1
  }

  /** The integer RoundHalfEven picks is the only one strictly closer than a half. */
  lemma RoundHalfEvenIsNearest(x: real, n: int)
    requires AbsReal(n as real - x) < 0.5
    ensures RoundHalfEven(x) == n
  {
  }

  /** Python's `round(x, 2)`, taken on exact reals rather than binary floats. */
  function Round2(x: real): (r: real)
    ensures AbsReal(r - x) <= 0.005
    ensures x >= 0.0 ==> r >= 0.0
    ensures x >= 1.0 ==> r >= 1.0
  {
    RoundHalfEven(x * 100.0) as real / 100.0
  }

  /** Python's `int(x)` on a float: truncation toward zero. */
  function TruncToInt(x: real): (r: int)
    ensures x >= 0.0 ==> 0 <= r && r as real <= x < r as real + 1.0
    ensures x < 0.0 ==> r <= 0 && r as real - 1.0 < x <= r as real
  {
    if x >= 0.0 then x.Floor else -((-x).Floor)
  }

  /** Python's `s[:n]`: a negative bound counts from the end, and the bound is clamped. */
  function PrefixSlice<T>(s: seq<T>, n: int): (r: seq<T>)
    ensures 0 <= n <= |s| ==> r == s[..n]
    ensures n > |s| ==> r == s
    ensures n < 0 ==> r == s[..Max(0, |s| + n)]
  {
    if n >= 0 then s[..Min(n, |s|)] else s[..Max(0, |s| + n)]
  }

  /** Python's `bytes(n)`: `n` zero bytes. */
  function Zeros(n: nat): (r: seq<byte>)
    ensures |r| == n
    ensures forall k :: 0 <= k < n ==> r[k] == 0
  {
    seq(n, _ => 0 as byte)
  }

  /** The last `n` elements of `s` (all of `s` when it is shorter). */
  function LastN<T>(s: seq<T>, n: nat): (r: seq<T>)
    ensures |r| == Min(|s|, n)
  {
    if |s| <= n then s else s[|s| - n..]
  }

  /** LastN keeps a suffix: the elements from index `|s| - min(|s|, n)` on. */
  lemma LastNIsSuffix<T>(s: seq<T>, n: nat)
    ensures LastN(s, n) == s[|s| - Min(|s|, n)..]
  {
  }

  /**
   * Python's `deque.append(x)` on a deque created with `maxlen`: the new
   * element goes on the right, and when the deque is full the leftmost one
   * is dropped first.
   */
  function DequeAppend<T>(q: seq<T>, x: T, maxlen: nat): seq<T>
  {
    LastN(q + [x], maxlen)
  }

  /** A deque never grows past `maxlen`; a full one drops its leftmost element. */
  lemma DequeAppendSpec<T>(q: seq<T>, x: T, maxlen: nat)
    requires |q| <= maxlen
    ensures |DequeAppend(q, x, maxlen)| <= maxlen
    ensures maxlen == 0 ==> DequeAppend(q, x, maxlen) == []
    ensures |q| < maxlen ==> DequeAppend(q, x, maxlen) == q + [x]
    ensures 0 < maxlen == |q| ==> DequeAppend(q, x, maxlen) == q[1..] + [x]
  {
  }

  /** Keeping a bounded window and then appending is the same as appending and then bounding. */
  lemma LastNAppend<T>(s: seq<T>, x: T, n: nat)
    ensures DequeAppend(LastN(s, n), x, n) == LastN(s + [x], n)
  {
    if |s| > n {
      assert LastN(s, n) + [x] == (s + [x])[|s| - n..];
    }
  }

  /** A slice that lies inside the left operand of a concatenation. */
  lemma SliceOfLeft<T>(a: seq<T>, b: seq<T>, lo: nat, hi: nat)
    requires lo <= hi <= |a|
    ensures (a + b)[lo..hi] == a[lo..hi]
  {
  }

  /** The slice of a concatenation past its left operand is the right operand. */
  lemma SliceOfRight<T>(a: seq<T>, b: seq<T>)
    ensures (a + b)[|a|..|a| + |b|] == b
  {
  }

  /** The last `n` elements of the prefix `s[..t]` are the slice from `max(0, t - n)` to `t`. */
  lemma LastNOfPrefix<T>(s: seq<T>, t: nat, n: nat)
    requires t <= |s|
    ensures LastN(s[..t], n) == s[Max(0, t - n)..t]
  {
    LastNIsSuffix(s[..t], n);
  }

  /** Two adjacent slices make up the slice spanning both. */
  lemma AdjacentSlices<T>(s: seq<T>, lo: nat, mid: nat, hi: nat)
    requires lo <= mid <= hi <= |s|
    ensures s[lo..mid] + s[mid..hi] == s[lo..hi]
  {
  }

  /** Extending a prefix by the next element gives the longer prefix. */
  lemma TakeSnoc<T>(s: seq<T>, i: nat)
    requires 0 < i <= |s|
    ensures s[..i - 1] + [s[i - 1]] == s[..i]
  {
  }

  /** Python's `b''.join(chunks)`. */
  function Flatten(chunks: seq<seq<byte>>): (r: seq<byte>)
    decreases |chunks|
  {
    if chunks == [] then [] else Flatten(chunks[..|chunks| - 1]) + chunks[|chunks| - 1]
  }

  lemma FlattenSnoc(chunks: seq<seq<byte>>, c: seq<byte>)
    ensures Flatten(chunks + [c]) == Flatten(chunks) + c
  {
    assert (chunks + [c])[..|chunks|] == chunks;
  }

  /** Joining a slice one chunk longer appends that chunk. */
  lemma FlattenSliceSnoc(c: seq<seq<byte>>, t: nat, i: nat)
    requires t < i <= |c|
    ensures Flatten(c[t..i]) == Flatten(c[t..i - 1]) + c[i - 1]
  {
    assert c[t..i][..i - 1 - t] == c[t..i - 1];
  }

  /** Joining two runs of chunks is joining each run and concatenating. */
  lemma {:induction false} FlattenAppend(a: seq<seq<byte>>, b: seq<seq<byte>>)
    ensures Flatten(a + b) == Flatten(a) + Flatten(b)
    decreases |b|
  {
    if b == [] {
      assert a + b == a;
    } else {
      var b' := b[..|b| - 1];
      var c := b[|b| - 1];
      assert b == b' + [c];
      assert a + b == (a + b') + [c];
      FlattenSnoc(a + b', c);
      FlattenAppend(a, b');
      FlattenSnoc(b', c);
    }
  }

  /** Joining a run of chunks around one of them: the chunks before, that chunk, the chunks after. */
  lemma FlattenSplit(c: seq<seq<byte>>, lo: nat, t: nat, s: nat)
    requires lo <= t < s <= |c|
    ensures Flatten(c[lo..s]) == Flatten(c[lo..t]) + c[t] + Flatten(c[t + 1..s])
  {
    assert c[lo..s] == (c[lo..t] + [c[t]]) + c[t + 1..s];
    FlattenAppend(c[lo..t] + [c[t]], c[t + 1..s]);
    FlattenSnoc(c[lo..t], c[t]);
  }

  /** Joining one-byte chunks gives their bytes in order. */
  lemma {:induction false} FlattenSingletons(c: seq<seq<byte>>)
    requires forall k :: 0 <= k < |c| ==> |c[k]| == 1
    ensures |Flatten(c)| == |c|
    ensures forall k :: 0 <= k < |c| ==> Flatten(c)[k] == c[k][0]
    decreases |c|
  {
    if c != [] {
      FlattenSingletons(c[..|c| - 1]);
    }
  }

  /** round() never reverses the order of its arguments. */
  lemma RoundHalfEvenMonotone(x: real, y: real)
    requires x <= y
    ensures RoundHalfEven(x) <= RoundHalfEven(y)
  {
    if x.Floor < y.Floor {
      assert RoundHalfEven(x) <= x.Floor + 1 <= y.Floor <= RoundHalfEven(y);
    }
  }

  /** Python's `xs[i]`: a negative index counts from the end, and one out of range raises IndexError. */
  function PyIndex<T>(xs: seq<T>, i: int): (r: Result<T>)
    ensures r.Success? <==> -|xs| <= i < |xs|
    ensures 0 <= i < |xs| ==> r == Success(xs[i])
    ensures -|xs| <= i < 0 ==> r == Success(xs[|xs| + i])
    ensures r.Failure? ==> r.error == IndexError
  {
    if 0 <= i < |xs| then Success(xs[i])
    else if -|xs| <= i < 0 then Success(xs[|xs| + i])
    else Failure(IndexError)
  }

  /** The list comprehension `[x for x in s if keep(x)]`. */
  function Filter<T>(s: seq<T>, keep: T -> bool): (r: seq<T>)
    ensures |r| <= |s|
    ensures forall k :: 0 <= k < |r| ==> r[k] in s && keep(r[k])
    ensures forall k :: 0 <= k < |s| && keep(s[k]) ==> s[k] in r
    decreases |s|
  {
    if s == [] then []
    else
      var rest := Filter(s[..|s| - 1], keep);
      var x := s[|s| - 1];
      assert s == s[..|s| - 1] + [x];
      if keep(x) then rest + [x] else rest
  }

  /** A one-element list keeps its element exactly when the test passes. */
  lemma FilterSingle<T>(x: T, keep: T -> bool)
    ensures Filter([x], keep) == if keep(x) then [x] else []
  {
    assert [x][..0] == [];
  }

  /** Filtering two runs is filtering each and concatenating: the comprehension keeps the input's order. */
  lemma {:induction false} FilterAppend<T>(a: seq<T>, b: seq<T>, keep: T -> bool)
    ensures Filter(a + b, keep) == Filter(a, keep) + Filter(b, keep)
    decreases |b|
  {
    if b == [] {
      assert a + b == a;
    } else {
      var b' := b[..|b| - 1];
      assert (a + b)[..|a + b| - 1] == a + b';
      FilterAppend(a, b', keep);
    }
  }

  /** Two tests that agree on every element of `s` keep the same elements. */
  lemma {:induction false} FilterCongruent<T>(s: seq<T>, p: T -> bool, q: T -> bool)
    requires forall k :: 0 <= k < |s| ==> p(s[k]) == q(s[k])
    ensures Filter(s, p) == Filter(s, q)
    decreases |s|
  {
    if s != [] {
      FilterCongruent(s[..|s| - 1], p, q);
    }
  }
}
