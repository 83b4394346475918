/**
  Small shared vocabulary: an optional value (the source's `T | null` and
  `T | undefined`), a success/failure result (a thrown `Error`), and the
  notion of one sequence being an order-preserving sub-sequence of another.
 */
module Common {

  /** `None` stands for JavaScript's `null` / `undefined`. */
  datatype Option<+T> = None | Some(value: T)

  /** `Failure` stands for a thrown `Error` carrying its message. */
  datatype Result<+R, +E> = Success(value: R) | Failure(error: E)

  /** JavaScript truthiness of a string looked up by key (an environment
      variable, a query parameter): present and not the empty string. */
  predicate HasValue(m: map<string, string>, key: string)
  {
    key in m && m[key] != ""
  }

  /** `a` is obtained from `b` by deleting zero or more elements, keeping the
      relative order of what is left. Greedy matching is complete here: if the
      heads agree, matching them never loses a solution. */
  predicate IsSubsequence<T(==)>(a: seq<T>, b: seq<T>)
    decreases |b|
  {
    if |a| == 0 then true
    else if |b| == 0 then false
    else if a[0] == b[0] then IsSubsequence(a[1..], b[1..])
    else IsSubsequence(a, b[1..])
  }

  /** A sub-sequence never has more elements than the sequence it came from,
      and each of its elements occurs there. */
  lemma {:induction false} SubsequenceFacts<T>(a: seq<T>, b: seq<T>)
    requires IsSubsequence(a, b)
    ensures |a| <= |b|
    ensures forall x :: x in a ==> x in b
    decreases |b|
  {
    if |a| == 0 {
    } else if a[0] == b[0] {
      SubsequenceFacts(a[1..], b[1..]);
      assert forall x :: x in a ==> x == a[0] || x in a[1..];
    } else {
      SubsequenceFacts(a, b[1..]);
    }
  }

  /** Every sequence is a sub-sequence of itself. */
  lemma {:induction false} SubsequenceReflexive<T>(a: seq<T>)
    ensures IsSubsequence(a, a)
    decreases |a|
  {
    if |a| > 0 {
      SubsequenceReflexive(a[1..]);
    }
  }

  /** A sub-sequence of the same length is the sequence itself. */
  lemma {:induction false} SubsequenceSameLength<T>(a: seq<T>, b: seq<T>)
    requires IsSubsequence(a, b)
    requires |a| == |b|
    ensures a == b
    decreases |b|
  {
    if |a| > 0 {
      if a[0] == b[0] {
        SubsequenceSameLength(a[1..], b[1..]);
        assert a == [a[0]] + a[1..];
        assert b == [b[0]] + b[1..];
      } else {
        SubsequenceFacts(a, b[1..]);
      }
    }
  }

  /** `Array.prototype.map` with the callback's index argument, the index
      counted from `start`. */
  function MapWithIndex<A, B>(f: (A, nat) -> B, xs: seq<A>, start: nat): (r: seq<B>)
    ensures |r| == |xs|
  {
    if |xs| == 0 then [] else [f(xs[0], start)] + MapWithIndex(f, xs[1..], start + 1)
  }

  /** The element at position `k` is the callback applied to the item there
      and to the index `start + k`. */
  lemma {:induction false} MapWithIndexAt<A, B>(f: (A, nat) -> B, xs: seq<A>, start: nat)
    ensures forall k :: 0 <= k < |xs| ==> MapWithIndex(f, xs, start)[k] == f(xs[k], start + k)
    decreases |xs|
  {
    if |xs| > 0 {
      var r := MapWithIndex(f, xs, start);
      MapWithIndexAt(f, xs[1..], start + 1);
      forall k | 0 <= k < |xs|
        ensures r[k] == f(xs[k], start + k)
      {
        if k > 0 {
          assert r[k] == MapWithIndex(f, xs[1..], start + 1)[k - 1];
          assert xs[k] == xs[1..][k - 1];
        }
      }
    }
  }

  /** Over a concatenation, the second part's index continues where the
      first part's stopped. */
  lemma {:induction false} MapWithIndexAppend<A, B>(f: (A, nat) -> B, x: seq<A>, y: seq<A>, start: nat)
    ensures MapWithIndex(f, x + y, start) == MapWithIndex(f, x, start) + MapWithIndex(f, y, start + |x|)
    decreases |x|
  {
    if |x| > 0 {
      var xy := x + y;
      assert xy[0] == x[0];
      assert xy[1..] == x[1..] + y;
      MapWithIndexAppend(f, x[1..], y, start + 1);
      var head, front, back := [f(x[0], start)], MapWithIndex(f, x[1..], start + 1), MapWithIndex(f, y, start + |x|);
      assert start + 1 + |x[1..]| == start + |x|;
      assert MapWithIndex(f, xy, start) == head + (front + back);
      assert MapWithIndex(f, x, start) == head + front;
      assert head + (front + back) == (head + front) + back;
    } else {
      assert x + y == y;
    }
  }

  /** `Array.prototype.map` with a one-argument callback. */
  function MapSeq<A, B>(f: A -> B, xs: seq<A>): (r: seq<B>)
    ensures |r| == |xs|
    ensures forall k :: 0 <= k < |xs| ==> r[k] == f(xs[k])
  {
    if |xs| == 0 then [] else [f(xs[0])] + MapSeq(f, xs[1..])
  }

  /** Mapping distributes over concatenation. */
  lemma {:induction false} MapSeqAppend<A, B>(f: A -> B, x: seq<A>, y: seq<A>)
    ensures MapSeq(f, x + y) == MapSeq(f, x) + MapSeq(f, y)
    decreases |x|
  {
    if |x| > 0 {
      var xy := x + y;
      assert xy[0] == x[0];
      assert xy[1..] == x[1..] + y;
      MapSeqAppend(f, x[1..], y);
    }
  }

  /** The positions below `n` at which `p` holds, in increasing order. */
  function Positions<T>(p: T -> bool, xs: seq<T>, n: nat): (r: seq<nat>)
    requires n <= |xs|
    ensures forall k :: 0 <= k < |r| ==> r[k] < n && p(xs[r[k]])
    ensures forall k, l :: 0 <= k < l < |r| ==> r[k] < r[l]
  {
    if n == 0 then []
    else Positions(p, xs, n - 1) + (if p(xs[n - 1]) then [n - 1] else [])
  }

  /** Every position below `n` at which `p` holds is listed. */
  lemma {:induction false} PositionsComplete<T>(p: T -> bool, xs: seq<T>, n: nat)
    requires n <= |xs|
    ensures forall i :: 0 <= i < n && p(xs[i]) ==> i in Positions(p, xs, n)
  {
    if n > 0 {
      var front := Positions(p, xs, n - 1);
      PositionsComplete(p, xs, n - 1);
      forall i | 0 <= i < n && p(xs[i])
        ensures i in Positions(p, xs, n)
      {
        if i < n - 1 {
          assert i in front;
        }
      }
    }
  }

  /** The remainder `i % n` for a positive modulus, computed by repeated
      subtraction, so that reasoning about a wrapped index stays linear. */
  function Wrap(i: nat, n: nat): (r: nat)
    requires n > 0
    ensures r < n
    ensures i < n ==> r == i
    decreases i
  {
    if i < n then i else Wrap(i - n, n)
  }

  /** `Wrap` is the remainder of Euclidean division. */
  lemma {:induction false} WrapIsMod(i: nat, n: nat)
    requires n > 0
    ensures Wrap(i, n) == i % n
    decreases i
  {
    if i >= n {
      WrapIsMod(i - n, n);
      DivisionUnique(i, n, (i - n) / n + 1, (i - n) % n);
    }
  }

  /** A quotient and a remainder in range determine the remainder. */
  lemma {:induction false} DivisionUnique(a: int, n: int, q: int, r: int)
    requires n > 0 && 0 <= r < n && a == q * n + r
    ensures a % n == r
  {
    var q0, r0 := a / n, a % n;
    assert (q - q0) * n == r0 - r;
    if q > q0 {
      MultipleAtLeast(q - q0, n);
    } else if q < q0 {
      assert (q0 - q) * n == r - r0;
      MultipleAtLeast(q0 - q, n);
    }
  }

  /** A positive multiple of `n` is at least `n`. */
  lemma {:induction false} MultipleAtLeast(k: int, n: int)
    requires k >= 1 && n > 0
    ensures k * n >= n
  {
  }
}
