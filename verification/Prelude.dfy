/** Shared vocabulary: optional results, default-zero mappings and sums over them. */
module Prelude {

  /** The outcome of a transaction: None is a revert, which leaves the state as it was. */
  datatype Option<+T> = None | Some(value: T)

  /** Account addresses; 0 is the zero address, which never sends a transaction. */
  type Address = nat
  type Account = a: Address | a != 0 witness 1

  /** A Solidity mapping to uint: absent keys read as zero. */
  function Get(m: map<Address, nat>, a: Address): nat {
    if a in m then m[a] else 0
  }

  ghost predicate NoDuplicates<T>(s: seq<T>) {
    forall i, j :: 0 <= i < j < |s| ==> s[i] != s[j]
  }

  /** The sum of all values stored in a mapping. */
  ghost function SumMap(m: map<Address, nat>): nat {
    if m == map[] then 0
    else
      var a :| a in m;
      m[a] + SumMap(m - {a})
  }

  /** The sum does not depend on the order in which keys are picked. */
  lemma {:induction false} SumMapPick(m: map<Address, nat>, a: Address)
    requires a in m
    ensures SumMap(m) == m[a] + SumMap(m - {a})
    decreases |m|
  {
    var b :| b in m && SumMap(m) == m[b] + SumMap(m - {b});
    if a != b {
      SumMapPick(m - {b}, a);
      SumMapPick(m - {a}, b);
      assert m - {a} - {b} == m - {b} - {a};
    }
  }

  /** Writing one entry moves the sum by the difference of the entries. */
  lemma SumMapUpdate(m: map<Address, nat>, a: Address, v: nat)
    ensures SumMap(m[a := v]) == SumMap(m) - Get(m, a) + v
  {
    var m' := m[a := v];
    SumMapPick(m', a);
    if a in m {
      SumMapPick(m, a);
      assert m' - {a} == m - {a};
    } else {
      assert m' - {a} == m;
    }
  }

  lemma {:induction false} SumMapZero(m: map<Address, nat>)
    requires forall a :: a in m ==> m[a] == 0
    ensures SumMap(m) == 0
    decreases |m|
  {
    if m != map[] {
      var a :| a in m;
      SumMapPick(m, a);
      SumMapZero(m - {a});
    }
  }

  /** Two different entries together never exceed the sum. */
  lemma SumMapCoversTwo(m: map<Address, nat>, a: Address, b: Address)
    requires a != b
    ensures Get(m, a) + Get(m, b) <= SumMap(m)
  {
    if a in m {
      SumMapPick(m, a);
      if b in m {
        SumMapPick(m - {a}, b);
      }
    } else if b in m {
      SumMapPick(m, b);
    }
  }

  // ---------- Sums over sequences ----------

  /** The sum of a measure over a sequence. */
  ghost function SumOf<T>(s: seq<T>, f: T -> nat): nat {
    if s == [] then 0 else SumOf(s[..|s| - 1], f) + f(s[|s| - 1])
  }

  function Itself(x: nat): nat { x }

  lemma SumAppend<T>(s: seq<T>, x: T, f: T -> nat)
    ensures SumOf(s + [x], f) == SumOf(s, f) + f(x)
  {
    assert (s + [x])[..|s|] == s;
  }

  lemma {:induction false} SumUpdate<T>(s: seq<T>, i: nat, x: T, f: T -> nat)
    requires i < |s|
    ensures SumOf(s[i := x], f) == SumOf(s, f) - f(s[i]) + f(x)
  {
    var last := |s| - 1;
    if i == last {
      assert s[i := x][..last] == s[..last];
    } else {
      assert s[i := x][..last] == s[..last][i := x];
      SumUpdate(s[..last], i, x, f);
    }
  }

  lemma {:induction false} SumSame<T>(s: seq<T>, t: seq<T>, f: T -> nat)
    requires |s| == |t| && forall i :: 0 <= i < |s| ==> f(s[i]) == f(t[i])
    ensures SumOf(s, f) == SumOf(t, f)
  {
    if s != [] { SumSame(s[..|s| - 1], t[..|t| - 1], f); }
  }

  /** Two measures that agree along a sequence have the same sum over it. */
  lemma {:induction false} SumAgrees<T>(s: seq<T>, f: T -> nat, g: T -> nat)
    requires forall i :: 0 <= i < |s| ==> f(s[i]) == g(s[i])
    ensures SumOf(s, f) == SumOf(s, g)
  {
    if s != [] { SumAgrees(s[..|s| - 1], f, g); }
  }

  lemma {:induction false} SumSplits<T>(s: seq<T>, whole: T -> nat, f: T -> nat, g: T -> nat)
    requires forall x :: x in s ==> whole(x) == f(x) + g(x)
    ensures SumOf(s, whole) == SumOf(s, f) + SumOf(s, g)
  {
    if s != [] { SumSplits(s[..|s| - 1], whole, f, g); }
  }

  lemma {:induction false} SumBelow<T>(s: seq<T>, f: T -> nat, g: T -> nat)
    requires forall x :: x in s ==> f(x) <= g(x)
    ensures SumOf(s, f) <= SumOf(s, g)
  {
    if s != [] { SumBelow(s[..|s| - 1], f, g); }
  }

  lemma {:induction false} SumCovers<T>(s: seq<T>, f: T -> nat, i: nat)
    requires i < |s|
    ensures f(s[i]) <= SumOf(s, f)
  {
    if i < |s| - 1 { SumCovers(s[..|s| - 1], f, i); }
  }

  lemma {:induction false} SumConcat<T>(s: seq<T>, t: seq<T>, f: T -> nat)
    ensures SumOf(s + t, f) == SumOf(s, f) + SumOf(t, f)
  {
    if t == [] {
      assert s + t == s;
    } else {
      assert (s + t)[..|s + t| - 1] == s + t[..|t| - 1];
      SumConcat(s, t[..|t| - 1], f);
    }
  }

  lemma SumPrepend<T>(x: T, s: seq<T>, f: T -> nat)
    ensures SumOf([x] + s, f) == f(x) + SumOf(s, f)
  {
    SumConcat([x], s, f);
    assert [x][..0] == [];
    assert SumOf([x], f) == f(x);
  }

  lemma MultisetWithout<T>(s: seq<T>, i: nat)
    requires i < |s|
    ensures multiset(s[..i] + s[i + 1..]) + multiset{s[i]} == multiset(s)
  {
    assert s == s[..i] + ([s[i]] + s[i + 1..]);
  }

  lemma MultisetCancel<T>(a: multiset<T>, b: multiset<T>, x: T)
    requires a + multiset{x} == b + multiset{x}
    ensures a == b
  {
    assert a == (a + multiset{x}) - multiset{x};
    assert b == (b + multiset{x}) - multiset{x};
  }

  /** A sum does not depend on the order of the sequence. */
  lemma {:induction false} SumPermutation<T>(s: seq<T>, t: seq<T>, f: T -> nat)
    requires multiset(s) == multiset(t)
    ensures SumOf(s, f) == SumOf(t, f)
  {
    if s == [] {
      assert |multiset(t)| == 0;
    } else {
      var last := |s| - 1;
      var x := s[last];
      assert x in multiset(t);
      var i :| 0 <= i < |t| && t[i] == x;
      MultisetWithout(s, last);
      MultisetWithout(t, i);
      assert s[..last] + s[last + 1..] == s[..last];
      MultisetCancel(multiset(s[..last]), multiset(t[..i] + t[i + 1..]), x);
      SumPermutation(s[..last], t[..i] + t[i + 1..], f);
      SumWithout(t, i, f);
    }
  }

  lemma SumWithout<T>(s: seq<T>, i: nat, f: T -> nat)
    requires i < |s|
    ensures SumOf(s, f) == SumOf(s[..i] + s[i + 1..], f) + f(s[i])
  {
    hide SumOf;
    var left, x, right := s[..i], s[i], s[i + 1..];
    assert s == (left + [x]) + right;
    SumConcat(left, right, f);
    SumConcat(left + [x], right, f);
    SumAppend(left, x, f);
  }

  /** The sequence with entry i overwritten by the last one, and the last one dropped. */
  function SwappedOut<T>(s: seq<T>, i: nat): seq<T>
    requires i < |s|
  {
    s[i := s[|s| - 1]][..|s| - 1]
  }

  /** Swapping the last entry in and popping it removes just the overwritten entry. */
  lemma SwapAndPop<T>(s: seq<T>, i: nat)
    requires i < |s|
    ensures multiset(SwappedOut(s, i)) + multiset{s[i]} == multiset(s)
    ensures |SwappedOut(s, i)| == |s| - 1 && SwappedOut(s, i)[..i] == s[..i]
  {
    var last := |s| - 1;
    var swapped := s[i := s[last]];
    assert swapped == SwappedOut(s, i) + [s[last]];
    assert multiset(swapped) == multiset(s) - multiset{s[i]} + multiset{s[last]};
    MultisetCancel(multiset(SwappedOut(s, i)) + multiset{s[i]}, multiset(s), s[last]);
  }

  // ---------- Arithmetic ----------

  /** Rounding down: x * b <= a exactly when x is at most the quotient. */
  lemma DivisionBound(a: nat, b: nat, x: nat)
    requires b > 0
    ensures x <= a / b <==> x * b <= a
  {
    var q := a / b;
    assert q * b <= a < (q + 1) * b;
    if x <= q {
      assert x * b <= q * b;
    } else {
      assert (q + 1) * b <= x * b;
    }
  }

  /** q is a over b, rounded down. */
  ghost predicate IsFloor(q: nat, a: nat, b: nat) { q * b <= a < (q + 1) * b }

  /** There is just one such number, and the quotient is it. */
  lemma FloorIs(q: nat, a: nat, b: nat)
    requires b > 0
    ensures IsFloor(q, a, b) <==> q == a / b
  {
    DivisionBound(a, b, q);
    DivisionBound(a, b, q + 1);
  }

  /** Rounding down twice is rounding down once by the product of the divisors. */
  lemma FloorsCompose(r: nat, a: nat, b: nat, d: nat)
    requires b > 0 && d > 0
    ensures IsFloor(r, a, b * d) <==> r == a / b / d
  {
    var q := a / b;
    assert b * d > 0;
    DivisionBound(q, d, r);
    DivisionBound(q, d, r + 1);
    DivisionBound(a, b, r * d);
    DivisionBound(a, b, (r + 1) * d);
    assert r * d * b == r * (b * d) && (r + 1) * d * b == (r + 1) * (b * d);
    FloorIs(r, q, d);
  }

  lemma MultiplyMonotone(x: int, y: int, b: int)
    requires x <= y && 0 <= b
    ensures x * b <= y * b
  {
    assert 0 <= (y - x) * b;
  }

  lemma MultiplyCancel(x: int, y: int, b: int)
    requires b > 0 && x * b <= y * b
    ensures x <= y
  {
    assert (y - x) * b >= 0;
  }

  /** Integer division is monotone in the dividend and antitone in the divisor. */
  lemma DivisionMonotone(a: nat, b: nat, c: nat, d: nat)
    requires b > 0 && d > 0 && a * d <= c * b
    ensures a / b <= c / d
  {
    var q := a / b;
    DivisionBound(a, b, q);
    assert q * b * d <= a * d;
    assert (q * d) * b <= c * b by { assert q * b * d == (q * d) * b; }
    MultiplyCancel(q * d, c, b);
    DivisionBound(c, d, q);
  }

  /** Rounding a fraction t/d of m down twice, through a denominator q, never exceeds m * t / d. */
  lemma TwoFloors(m: nat, t: nat, d: nat, q: nat, p: nat, r: nat)
    requires d > 0 && q > 0 && p == t * q / d && r == m * p / q
    ensures r * d <= m * t
  {
    DivisionBound(t * q, d, p);
    DivisionBound(m * p, q, r);
    MultiplyMonotone(r * q, m * p, d);
    MultiplyMonotone(p * d, t * q, m);
    calc {
      (r * d) * q;
      (r * q) * d;
    <=
      (m * p) * d;
      (p * d) * m;
    <=
      (t * q) * m;
      (m * t) * q;
    }
    MultiplyCancel(r * d, m * t, q);
  }
}
