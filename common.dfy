// Shared vocabulary: optional values, sums over sequences and maps, and the
// "defaultdict(int)" increment that the accumulators use everywhere.

module Common {

  datatype Option<T> = None | Some(value: T)

  /** Sum of a sequence, folded from the right end so that appending is cheap. */
  function Sum(s: seq<int>): int
  {
    if s == [] then 0 else Sum(s[..|s| - 1]) + s[|s| - 1]
  }

  lemma SumAppend(s: seq<int>, x: int)
    ensures Sum(s + [x]) == Sum(s) + x
  {
    assert (s + [x])[..|s|] == s;
  }

  lemma {:induction false} SumConcat(a: seq<int>, b: seq<int>)
    ensures Sum(a + b) == Sum(a) + Sum(b)
    decreases |b|
  {
    if b == [] {
      assert a + b == a;
    } else {
      var b' := b[..|b| - 1];
      assert a + b == (a + b') + [b[|b| - 1]];
      assert b == b' + [b[|b| - 1]];
      SumAppend(a + b', b[|b| - 1]);
      SumAppend(b', b[|b| - 1]);
      SumConcat(a, b');
    }
  }

  lemma {:induction false} SumNonNegative(s: seq<int>)
    requires forall i :: 0 <= i < |s| ==> s[i] >= 0
    ensures Sum(s) >= 0
    decreases |s|
  {
    if s != [] {
      SumNonNegative(s[..|s| - 1]);
    }
  }

  /** Arithmetic mean as Python's statistics.mean, with 0 for the empty sequence. */
  function Mean(s: seq<int>): (m: real)
    ensures s == [] ==> m == 0.0
    ensures s != [] ==> m * (|s| as real) == Sum(s) as real
  {
    if s == [] then 0.0 else Sum(s) as real / |s| as real
  }

  /** The mean of non-negative values is non-negative. */
  lemma MeanNonNegative(s: seq<int>)
    requires forall i :: 0 <= i < |s| ==> s[i] >= 0
    ensures Mean(s) >= 0.0
  {
    SumNonNegative(s);
  }

  /** Value of a defaultdict(int): a missing key reads as 0. */
  function Get<K>(m: map<K, int>, k: K): int
  {
    if k in m then m[k] else 0
  }

  /** `d[k] += n` on a defaultdict(int). */
  function Bump<K>(m: map<K, int>, k: K, n: int): (r: map<K, int>)
    ensures r.Keys == m.Keys + {k}
    ensures Get(r, k) == Get(m, k) + n
    ensures forall j :: j in m && j != k ==> r[j] == m[j]
  {
    m[k := Get(m, k) + n]
  }

  /** Sum of the values of a map (Python's sum(d.values())). */
  ghost function MapSum<K>(m: map<K, int>): int
    decreases |m|
  {
    if |m| == 0 then 0
    else
      var k := Pick(m);
      m[k] + MapSum(m - {k})
  }

  ghost function Pick<K>(m: map<K, int>): (k: K)
    requires |m| > 0
    ensures k in m
  {
    var k :| k in m; k
  }

  /** The sum does not depend on which key the definition picks first. */
  lemma {:induction false} MapSumRemove<K>(m: map<K, int>, k: K)
    requires k in m
    ensures MapSum(m) == m[k] + MapSum(m - {k})
    decreases |m|
  {
    var j := Pick(m);
    if j != k {
      var mj := m - {j};
      var mk := m - {k};
      assert k in mj && |mj| == |m| - 1;
      assert j in mk && |mk| == |m| - 1;
      MapSumRemove(mj, k);
      MapSumRemove(mk, j);
      assert mj - {k} == mk - {j};
    }
  }

  lemma MapSumBump<K>(m: map<K, int>, k: K, n: int)
    ensures MapSum(Bump(m, k, n)) == MapSum(m) + n
  {
    var r := Bump(m, k, n);
    MapSumRemove(r, k);
    UpdateRemove(m, k, Get(m, k) + n);
    var rest := MapSum(m - {k});
    assert MapSum(r) == Get(m, k) + n + rest;
    if k in m {
      MapSumRemove(m, k);
      assert MapSum(m) == Get(m, k) + rest;
    } else {
      assert m - {k} == m;
      assert MapSum(m) == Get(m, k) + rest;
    }
  }

  /** A map that is `before` with one key optionally bumped by one sums to one more when it was. */
  lemma SumAfterBump<K>(m: map<K, int>, before: map<K, int>, k: K, bumped: bool)
    requires m == if bumped then Bump(before, k, 1) else before
    ensures MapSum(m) == MapSum(before) + (if bumped then 1 else 0)
  {
    if bumped {
      MapSumBump(before, k, 1);
    }
  }

  lemma UpdateRemove<K>(m: map<K, int>, k: K, v: int)
    ensures m[k := v] - {k} == m - {k}
  {
    assert (m[k := v] - {k}).Keys == (m - {k}).Keys;
  }

  lemma {:induction false} MapSumNonNegative<K>(m: map<K, int>)
    requires forall k :: k in m ==> m[k] >= 0
    ensures MapSum(m) >= 0
    decreases |m|
  {
    if |m| > 0 {
      var k :| k in m;
      MapSumRemove(m, k);
      MapSumNonNegative(m - {k});
    }
  }

  /** A dictionary of zeroes sums to zero. */
  lemma {:induction false} MapSumZero<K>(m: map<K, int>)
    requires forall k :: k in m ==> m[k] == 0
    ensures MapSum(m) == 0
    decreases |m|
  {
    if |m| > 0 {
      var k :| k in m;
      MapSumRemove(m, k);
      MapSumZero(m - {k});
    }
  }

  /** A dictionary whose every value is at least one sums to at least its size. */
  lemma {:induction false} MapSumAtLeastSize<K>(m: map<K, int>)
    requires forall k :: k in m ==> m[k] >= 1
    ensures MapSum(m) >= |m|
    decreases |m|
  {
    if |m| > 0 {
      var k :| k in m;
      MapSumRemove(m, k);
      MapSumAtLeastSize(m - {k});
    }
  }

  /** `part / whole` when whole is positive, else 0 (the source's guarded division). */
  function Ratio(part: int, whole: int): (r: real)
    ensures whole <= 0 ==> r == 0.0
    ensures whole > 0 ==> r * (whole as real) == part as real
    ensures whole > 0 && 0 <= part <= whole ==> 0.0 <= r <= 1.0
    ensures whole > 0 && part >= whole ==> r >= 1.0
  {
    if whole > 0 then part as real / whole as real else 0.0
  }

  /** `part / whole * 100` when whole is positive, else 0. */
  function Percent(part: int, whole: int): (r: real)
    ensures whole <= 0 ==> r == 0.0
    ensures whole > 0 ==> r * (whole as real) == 100.0 * part as real
    ensures whole > 0 && 0 <= part <= whole ==> 0.0 <= r <= 100.0
  {
    Ratio(part, whole) * 100.0
  }

  /** Percentages of disjoint parts of one whole add up. */
  lemma PercentAdd(a: int, b: int, whole: int)
    ensures Percent(a, whole) + Percent(b, whole) == Percent(a + b, whole)
  {
    if whole > 0 {
      var w := whole as real;
      var pa, pb, pab := Percent(a, whole), Percent(b, whole), Percent(a + b, whole);
      assert (pa + pb) * w == pa * w + pb * w;
      assert (pa + pb) * w == pab * w;
      assert (pa + pb - pab) * w == 0.0;
    }
  }
}
