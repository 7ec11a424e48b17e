/**
 Sums over maps, sequences without duplicates, rotation over a fixed order, and
 the rounding of basis-point shares.
 */
module Sums {
  import opened Common

  // --- Sums over maps ---

  ghost function SumMap<K>(m: map<K, int>): int
    decreases |m|
  {
    if m == map[] then 0
    else
      var k :| k in m;
      m[k] + SumMap(m - {k})
  }

  /** The sum does not depend on the order in which keys are taken. */
  lemma {:induction false} SumWithout<K>(m: map<K, int>, k: K)
    requires k in m
    ensures SumMap(m) == m[k] + SumMap(m - {k})
    decreases |m|
  {
    var j :| j in m && SumMap(m) == m[j] + SumMap(m - {j});
    if j != k {
      assert (m - {j}) - {k} == (m - {k}) - {j};
      assert |m - {j}| < |m| && |m - {k}| < |m| by {
        assert m.Keys - {j} < m.Keys && (m - {j}).Keys == m.Keys - {j};
        assert m.Keys - {k} < m.Keys && (m - {k}).Keys == m.Keys - {k};
      }
      SumWithout(m - {j}, k);
      SumWithout(m - {k}, j);
    }
  }

  lemma SumUpdate<K>(m: map<K, int>, k: K, v: int)
    ensures SumMap(m[k := v]) == SumMap(m) + v - (if k in m then m[k] else 0)
  {
    SumWithout(m[k := v], k);
    assert m[k := v] - {k} == m - {k};
    if k in m {
      SumWithout(m, k);
    } else {
      assert m - {k} == m;
    }
  }

  lemma {:induction false} SumMonotone<K>(m: map<K, int>, bound: map<K, int>)
    requires m.Keys <= bound.Keys
    requires forall k :: k in bound ==> 0 <= bound[k] && (k in m ==> m[k] <= bound[k])
    ensures SumMap(m) <= SumMap(bound)
    decreases |bound|
  {
    if bound != map[] {
      var k :| k in bound;
      assert (bound - {k}).Keys == bound.Keys - {k} && bound.Keys - {k} < bound.Keys;
      SumWithout(bound, k);
      SumMonotone(m - {k}, bound - {k});
      if k in m {
        SumWithout(m, k);
      } else {
        assert m - {k} == m;
      }
    }
  }

  /** Keys whose value is zero add nothing. */
  lemma {:induction false} SumPadded<K>(m: map<K, int>, padded: map<K, int>)
    requires m.Keys <= padded.Keys && forall k :: k in padded ==> padded[k] == if k in m then m[k] else 0
    ensures SumMap(padded) == SumMap(m)
    decreases |padded|
  {
    if padded != map[] {
      var k :| k in padded;
      assert (padded - {k}).Keys == padded.Keys - {k} && padded.Keys - {k} < padded.Keys;
      SumWithout(padded, k);
      SumPadded(m - {k}, padded - {k});
      if k in m {
        SumWithout(m, k);
      } else {
        assert m - {k} == m;
      }
    }
  }

  /** A map whose values are all `v` sums to `v` per key. */
  lemma {:induction false} SumConstant<K>(m: map<K, int>, v: int)
    requires forall k :: k in m ==> m[k] == v
    ensures SumMap(m) == |m| * v
    decreases |m|
  {
    if m != map[] {
      var k :| k in m;
      assert (m - {k}).Keys == m.Keys - {k} && |(m - {k}).Keys| == |m| - 1;
      SumWithout(m, k);
      SumConstant(m - {k}, v);
      assert |m| * v == (|m| - 1) * v + v;
    }
  }

  // --- Sequences without duplicates ---

  ghost predicate NoDup<T>(s: seq<T>) {
    forall i, j :: 0 <= i < j < |s| ==> s[i] != s[j]
  }

  ghost function Elements<T>(s: seq<T>): set<T> {
    set x | x in s
  }

  lemma {:induction false} ElementsCount<T>(s: seq<T>)
    ensures |Elements(s)| <= |s|
    ensures NoDup(s) <==> |Elements(s)| == |s|
  {
    if s != [] {
      var n := |s| - 1;
      ElementsCount(s[..n]);
      assert s == s[..n] + [s[n]];
      assert Elements(s) == Elements(s[..n]) + {s[n]};
      if NoDup(s) {
        assert s[n] !in s[..n];
        assert NoDup(s[..n]);
      } else if s[n] in s[..n] {
        assert Elements(s) == Elements(s[..n]);
      }
    }
  }

  /** `q` with every occurrence of `x` dropped, in the same order. */
  ghost function Without<T(!new)>(q: seq<T>, x: T): (r: seq<T>)
    ensures forall y :: y in r <==> y in q && y != x
    ensures NoDup(q) ==> NoDup(r)
  {
    if q == [] then []
    else
      var n := |q| - 1;
      assert q == q[..n] + [q[n]];
      assert NoDup(q) ==> NoDup(q[..n]) && q[n] !in q[..n];
      if q[n] == x then Without(q[..n], x)
      else
        var front := Without(q[..n], x);
        assert q[n] in front ==> q[n] in q[..n];
        front + [q[n]]
  }

  /** The places in `q` that `r` was made of, in order. */
  ghost predicate Picks<T>(q: seq<T>, r: seq<T>, places: seq<nat>) {
    && |places| == |r|
    && (forall i :: 0 <= i < |places| ==> places[i] < |q| && r[i] == q[places[i]])
    && forall i, j :: 0 <= i < j < |places| ==> places[i] < places[j]
  }

  /** `r` is `q` without `x`: everything else as often and in the same order as before. */
  ghost predicate TakenOut<T(!new)>(q: seq<T>, r: seq<T>, x: T) {
    && x !in r && (forall y :: y != x ==> multiset(r)[y] == multiset(q)[y])
    && exists places :: Picks(q, r, places)
  }

  lemma {:induction false} WithoutPicks<T(!new)>(q: seq<T>, x: T) returns (places: seq<nat>)
    ensures Picks(q, Without(q, x), places) && forall y :: y != x ==> multiset(Without(q, x))[y] == multiset(q)[y]
  {
    if q == [] {
      places := [];
    } else {
      var n := |q| - 1;
      places := WithoutPicks(q[..n], x);
      assert q == q[..n] + [q[n]];
      if q[n] != x {
        places := places + [n];
      }
    }
  }

  lemma WithoutTakesOut<T(!new)>(q: seq<T>, x: T)
    ensures TakenOut(q, Without(q, x), x)
  {
    var places := WithoutPicks(q, x);
  }

  // --- Records under contiguous ids ---

  /** `made` is on record under contiguous ids from `n` on, and every other id as before. */
  ghost predicate OnRecord<T>(before: map<nat, T>, after: map<nat, T>, n: nat, made: seq<T>) {
    && (forall id: nat :: n <= id < n + |made| ==> id in after && after[id] == made[id - n])
    && forall id: nat :: id < n || id >= n + |made| ==>
                           (id in after <==> id in before) && (id in after ==> after[id] == before[id])
  }

  lemma OneMoreOnRecord<T>(before: map<nat, T>, after: map<nat, T>, n: nat, made: seq<T>, x: T)
    requires OnRecord(before, after, n, made)
    ensures OnRecord(before, after[n + |made| := x], n, made + [x])
  {
  }

  // --- Sets and rotations ---

  lemma SubsetOfEqualSize<T>(a: set<T>, b: set<T>)
    requires a <= b
    ensures |a| <= |b|
    ensures |a| == |b| ==> a == b
  {
    assert b == a + (b - a);
  }

  /** Pigeonhole: a duplicate-free sequence inside another of no greater length
      covers it, and then the other has no duplicates either. */
  lemma Pigeonhole<T>(s: seq<T>, t: seq<T>)
    requires NoDup(s) && |t| <= |s|
    requires forall x :: x in s ==> x in t
    ensures NoDup(t) && |t| == |s|
    ensures forall x :: x in t ==> x in s
  {
    ElementsCount(s);
    ElementsCount(t);
    assert Elements(s) <= Elements(t);
    SubsetOfEqualSize(Elements(s), Elements(t));
    forall x | x in t ensures x in s {
      assert x in Elements(t);
    }
  }

  // --- Rotation ---

  /** Any `n` consecutive numbers meet every residue modulo `n`. */
  lemma RotationHits(start: nat, n: nat, i: nat) returns (j: nat)
    requires i < n
    ensures j < n && (start + j) % n == i
  {
    var r := start % n;
    j := if i >= r then i - r else i + n - r;
    ModStep(start, j, n);
  }

  /** No two of `n` consecutive numbers share a residue modulo `n`. */
  lemma RotationOnce(start: nat, n: nat, j: nat, k: nat)
    requires j < n && k < n && (start + j) % n == (start + k) % n
    ensures j == k
  {
    ModStep(start, j, n);
    ModStep(start, k, n);
  }

  lemma ModStep(start: nat, j: nat, n: nat)
    requires j < n
    ensures (start + j) % n == if start % n + j < n then start % n + j else start % n + j - n
  {
    var q, r := start / n, start % n;
    if r + j < n {
      ModUnique(start + j, n, q, r + j);
    } else {
      assert (q + 1) * n == q * n + n;
      ModUnique(start + j, n, q + 1, r + j - n);
    }
  }

  lemma ModAdd(a: nat, b: nat, n: nat)
    requires n > 0
    ensures (a % n + b) % n == (a + b) % n
  {
    var r := (a % n + b) % n;
    var q := (a % n + b) / n;
    assert a == (a / n) * n + a % n;
    assert a + b == (a / n) * n + q * n + r;
    assert (a / n + q) * n == (a / n) * n + q * n;
    ModUnique(a + b, n, a / n + q, r);
  }

  lemma ModUnique(x: int, n: nat, q: int, r: nat)
    requires r < n && x == q * n + r
    ensures x % n == r
  {
    var d := x / n - q;
    assert d * n == (x / n) * n - q * n;
    assert x == (x / n) * n + x % n;
    MultipleGrows(d, n);
  }

  lemma MulUp(n: nat, a: int, b: int)
    requires a <= b
    ensures n * a <= n * b
  {
    assert n * b == n * a + n * (b - a);
    assert n * (b - a) >= 0;
  }

  lemma MultipleGrows(d: int, n: int)
    requires n >= 0
    ensures d >= 1 ==> d * n >= n
    ensures d <= -1 ==> d * n <= -n
  {
    if d >= 1 {
      assert d * n == n + (d - 1) * n;
    } else if d <= -1 {
      assert d * n == -n + (d + 1) * n;
    }
  }

  // --- Basis-point shares ---

  ghost function SumSeq(s: seq<nat>): nat {
    if s == [] then 0 else SumSeq(s[..|s| - 1]) + s[|s| - 1]
  }

  /** The basis points of a list of recipients. */
  function BpsOf(recipients: seq<(Address, nat)>): (bps: seq<nat>)
    ensures |bps| == |recipients|
  {
    seq(|recipients|, i requires 0 <= i < |recipients| => recipients[i].1)
  }

  /** The share of `total` that `bps` basis points stand for, rounded down. */
  function Share(total: int, bps: nat): int {
    (total * bps) / BPS
  }

  ghost function SumShares(total: int, bps: seq<nat>): int {
    if bps == [] then 0 else SumShares(total, bps[..|bps| - 1]) + Share(total, bps[|bps| - 1])
  }

  lemma {:induction false} SharesBelow(total: nat, bps: seq<nat>)
    ensures 0 <= total * SumSeq(bps) - BPS * SumShares(total, bps) <= (BPS - 1) * |bps|
  {
    if bps != [] {
      var n := |bps| - 1;
      var b := bps[n];
      SharesBelow(total, bps[..n]);
      assert total * SumSeq(bps) == total * SumSeq(bps[..n]) + total * b;
      assert 0 <= total * b - BPS * Share(total, b) <= BPS - 1;
    }
  }

  /** Shares of a whole leave less dust than there are shares. */
  lemma DustOfWhole(total: nat, bps: seq<nat>)
    requires SumSeq(bps) == BPS
    ensures 0 <= total - SumShares(total, bps) < |bps|
  {
    SharesBelow(total, bps);
  }
}
