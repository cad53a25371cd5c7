/** Small vocabulary shared by every component of the model. */
module Common {

  const U64_MAX: nat := 0xFFFF_FFFF_FFFF_FFFF

  datatype Option<+T> = None | Some(value: T)

  function Min(a: int, b: int): int {
    if a <= b then a else b
  }

  function Max(a: int, b: int): int {
    if a <= b then b else a
  }

  /** How much one occurrence counts. */
  function One(b: bool): nat {
    if b then 1 else 0
  }

  /** `saturating_sub` on unsigned integers. */
  function SaturatingSub(a: nat, b: nat): nat {
    if b <= a then a - b else 0
  }

  lemma SubsetSize<T>(a: set<T>, b: set<T>)
    requires a <= b
    ensures |a| <= |b| && (|a| == |b| <==> a == b)
  {
    assert b == a + (b - a);
    assert |b| == |a| + |b - a|;
  }

  /** Multiplication by repeated addition, which keeps the proofs about totals linear. */
  function Times(a: nat, n: nat): nat {
    if n == 0 then 0 else Times(a, n - 1) + a
  }

  lemma {:induction false} TimesIsProduct(a: nat, n: nat)
    ensures Times(a, n) == a * n
  {
    if n > 0 {
      TimesIsProduct(a, n - 1);
    }
  }

  lemma {:induction false} TimesAdds(a: nat, m: nat, n: nat)
    ensures Times(a, m + n) == Times(a, m) + Times(a, n)
  {
    if n > 0 {
      TimesAdds(a, m, n - 1);
    }
  }

  lemma {:induction false} QuotientAtLeast(a: nat, b: nat, n: nat)
    requires 0 < b && Times(b, n) <= a
    ensures n <= a / b
  {
    TimesIsProduct(b, n);
    Cancel(b, n, a / b + 1);
  }

  lemma {:induction false} Cancel(b: nat, m: nat, n: nat)
    requires b * m < b * n
    ensures m < n
  {
  }

  /** `saturating_mul` on `u64`. */
  function SaturatingMul(a: nat, n: nat): nat {
    Min(Times(a, n), U64_MAX)
  }
}

/** Sums over finite maps, independent of any iteration order. */
module Sums {
  import opened Common

  ghost function SumValues<K(!new)>(m: map<K, nat>): nat
    decreases |m|
  {
    if m == map[] then 0
    else
      var k :| k in m;
      m[k] + SumValues(m - {k})
  }

  lemma {:induction false} SumRemove<K(!new)>(m: map<K, nat>, k: K)
    requires k in m
    ensures SumValues(m) == m[k] + SumValues(m - {k})
    decreases |m|
  {
    var k0 :| k0 in m && SumValues(m) == m[k0] + SumValues(m - {k0});
    if k0 != k {
      SumRemove(m - {k0}, k);
      SumRemove(m - {k}, k0);
      assert m - {k0} - {k} == m - {k} - {k0};
    }
  }

  /** Changing one entry changes the sum by as much. */
  lemma {:induction false} SumChange<K(!new)>(m: map<K, nat>, n: map<K, nat>, k: K)
    requires k in m && k in n && m - {k} == n - {k}
    ensures SumValues(m) + n[k] == SumValues(n) + m[k]
  {
    SumRemove(m, k);
    SumRemove(n, k);
  }

  lemma {:induction false} RemoveShrinks<K, V>(m: map<K, V>, k: K)
    requires k in m
    ensures |m - {k}| == |m| - 1
  {
    assert (m - {k}).Keys == m.Keys - {k};
  }

  lemma {:induction false} SumBounded<K(!new)>(m: map<K, nat>, bound: nat)
    requires forall k :: k in m ==> m[k] <= bound
    ensures SumValues(m) <= Times(bound, |m|)
    decreases |m|
  {
    if m != map[] {
      var k :| k in m;
      SumRemove(m, k);
      SumBounded(m - {k}, bound);
      RemoveShrinks(m, k);
    }
  }

  ghost function SumSeq(s: seq<nat>): nat {
    if s == [] then 0 else SumSeq(s[..|s| - 1]) + s[|s| - 1]
  }
}

/** Counting the elements of a sequence that satisfy a predicate. */
module Counting {

  function Count<T>(s: seq<T>, p: T -> bool): nat {
    if s == [] then 0 else Count(s[..|s| - 1], p) + (if p(s[|s| - 1]) then 1 else 0)
  }

  lemma {:induction false} CountAppend<T>(s: seq<T>, x: T, p: T -> bool)
    ensures Count(s + [x], p) == Count(s, p) + (if p(x) then 1 else 0)
  {
    assert (s + [x])[..|s|] == s;
  }

  lemma {:induction false} CountNext<T>(s: seq<T>, i: nat, p: T -> bool)
    requires i < |s|
    ensures Count(s[..i + 1], p) == Count(s[..i], p) + (if p(s[i]) then 1 else 0)
  {
    assert s[..i + 1] == s[..i] + [s[i]];
    CountAppend(s[..i], s[i], p);
  }

  lemma {:induction false} CountUpdate<T>(s: seq<T>, i: nat, x: T, p: T -> bool)
    requires i < |s|
    ensures Count(s[i := x], p) + (if p(s[i]) then 1 else 0) == Count(s, p) + (if p(x) then 1 else 0)
  {
    var last := |s| - 1;
    if i == last {
      assert s[i := x][..last] == s[..last];
    } else {
      CountUpdate(s[..last], i, x, p);
      assert s[i := x][..last] == s[..last][i := x];
    }
  }

  lemma {:induction false} CountZero<T>(s: seq<T>, p: T -> bool)
    ensures Count(s, p) == 0 <==> forall x :: x in s ==> !p(x)
  {
    if s != [] {
      var prefix := s[..|s| - 1];
      CountZero(prefix, p);
      assert s == prefix + [s[|s| - 1]];
    }
  }
}
