/**
 * Exact arithmetic used by the portfolio code: Python's `round(x, 2)` and
 * `10 ** d` on exact reals, and sums over sequences, whole or grouped by key
 * (Python's `sum(...)` and the `defaultdict(float)` accumulators).
 */
module Numbers {

  // ---------------------------------------------------------------------------
  // round(x, 2)
  // ---------------------------------------------------------------------------

  /**
   * `round(x, 2)`: the nearest multiple of 0.01, a tie going to the even
   * hundredth (Python rounds half to even).
   */
  function Round2(x: real): real {
    var scaled := x * 100.0;
    var n := scaled.Floor;
    var frac := scaled - n as real;
    var m := if frac < 0.5 then n
             else if frac > 0.5 then n + 1
             else if n % 2 == 0 then n else n + 1;
    m as real / 100.0
  }

  /** Rounding moves a value by at most half a hundredth. */
  lemma Round2Close(x: real)
    ensures -0.005 <= Round2(x) - x <= 0.005
  {
  }

  /** A whole number of hundredths is left as it is. */
  lemma Round2Exact(k: int)
    ensures Round2(k as real / 100.0) == k as real / 100.0
  {
    assert (k as real / 100.0) * 100.0 == k as real;
  }

  /** Rounding twice is rounding once. */
  lemma Round2Idempotent(x: real)
    ensures Round2(Round2(x)) == Round2(x)
  {
    var scaled := x * 100.0;
    var n := scaled.Floor;
    var frac := scaled - n as real;
    var m := if frac < 0.5 then n
             else if frac > 0.5 then n + 1
             else if n % 2 == 0 then n else n + 1;
    assert Round2(x) == m as real / 100.0;
    Round2Exact(m);
  }

  // ---------------------------------------------------------------------------
  // Powers of ten and decimal scaling
  // ---------------------------------------------------------------------------

  function Pow10(n: nat): (r: nat)
    ensures r >= 1
  {
    if n == 0 then 1 else 10 * Pow10(n - 1)
  }

  /** Python's `10 ** d` for an int `d`, exact (a fraction when `d < 0`). */
  function Pow10Real(d: int): (r: real)
    ensures r > 0.0
  {
    if d >= 0 then Pow10(d) as real else 1.0 / Pow10(-d) as real
  }

  /** `raw / (10 ** decimals)`: a raw token balance in whole-token units. */
  function Scale(raw: int, decimals: int): real {
    raw as real / Pow10Real(decimals)
  }

  /** Scaling loses nothing: multiplying back gives the raw balance, and zero stays zero. */
  lemma ScaleRoundTrip(raw: int, decimals: int)
    ensures Scale(raw, decimals) * Pow10Real(decimals) == raw as real
    ensures Scale(raw, decimals) == 0.0 <==> raw == 0
    ensures raw > 0 ==> Scale(raw, decimals) > 0.0
  {
  }

  // ---------------------------------------------------------------------------
  // Sums
  // ---------------------------------------------------------------------------

  /** `sum(f(x) for x in s)`. */
  function Sum<T>(s: seq<T>, f: T -> real): real {
    if |s| == 0 then 0.0 else Sum(s[..|s| - 1], f) + f(s[|s| - 1])
  }

  /** A sum of non-negative terms is non-negative, and a sum of non-positive terms is non-positive. */
  lemma {:induction false} SumSign<T>(s: seq<T>, f: T -> real)
    ensures (forall i :: 0 <= i < |s| ==> f(s[i]) >= 0.0) ==> Sum(s, f) >= 0.0
    ensures (forall i :: 0 <= i < |s| ==> f(s[i]) <= 0.0) ==> Sum(s, f) <= 0.0
  {
    if |s| > 0 {
      var init := s[..|s| - 1];
      SumSign(init, f);
      assert forall i :: 0 <= i < |init| ==> init[i] == s[i];
    }
  }

  lemma {:induction false} SumAppend<T>(a: seq<T>, b: seq<T>, f: T -> real)
    ensures Sum(a + b, f) == Sum(a, f) + Sum(b, f)
  {
    if |b| > 0 {
      assert (a + b)[..|a + b| - 1] == a + b[..|b| - 1];
      SumAppend(a, b[..|b| - 1], f);
    } else {
      assert a + b == a;
    }
  }

  /** A sum taken from the front: the first term plus the rest. */
  lemma SumFront<T>(s: seq<T>, f: T -> real)
    requires |s| > 0
    ensures Sum(s, f) == f(s[0]) + Sum(s[1..], f)
  {
    assert s == [s[0]] + s[1..];
    SumAppend([s[0]], s[1..], f);
    assert [s[0]][..0] == [];
  }

  /** Sums do not depend on the order of the terms. */
  lemma {:induction false} SumPermutation<T>(a: seq<T>, b: seq<T>, f: T -> real)
    requires multiset(a) == multiset(b)
    ensures Sum(a, f) == Sum(b, f)
  {
    if |a| > 0 {
      var x := a[0];
      assert x in multiset(b);
      var i :| 0 <= i < |b| && b[i] == x;
      var rest := b[..i] + b[i + 1..];
      assert b == b[..i] + [x] + b[i + 1..];
      assert a == [x] + a[1..];
      assert multiset(b) == multiset(b[..i]) + multiset([x]) + multiset(b[i + 1..]);
      assert multiset(a) == multiset([x]) + multiset(a[1..]);
      assert multiset(rest) == multiset(b[..i]) + multiset(b[i + 1..]);
      assert multiset(a[1..]) == multiset(a) - multiset{x};
      assert multiset(rest) == multiset(b) - multiset{x};
      SumPermutation(a[1..], rest, f);
      SumFront(a, f);
      SumAppend(b[..i] + [x], b[i + 1..], f);
      SumAppend(b[..i], [x], f);
      SumAppend(b[..i], b[i + 1..], f);
      assert [x][..0] == [];
    } else {
      assert b == [];
    }
  }

  // ---------------------------------------------------------------------------
  // Grouped sums: `totals[key(x)] += f(x)` over a `defaultdict(float)`
  // ---------------------------------------------------------------------------

  /** The terms of `f` that fall in group `k`; zero elsewhere. */
  function InGroup<T, K(==)>(key: T -> K, f: T -> real, k: K): T -> real {
    x => if key(x) == k then f(x) else 0.0
  }

  /** The total of group `k`. */
  function GroupSum<T, K(==)>(s: seq<T>, key: T -> K, f: T -> real, k: K): real {
    Sum(s, InGroup(key, f, k))
  }

  /** Appending one element raises only the group it falls in. */
  lemma GroupSumSnoc<T, K>(s: seq<T>, x: T, key: T -> K, f: T -> real, k: K)
    ensures GroupSum(s + [x], key, f, k) == GroupSum(s, key, f, k) + (if key(x) == k then f(x) else 0.0)
  {
    assert (s + [x])[..|s + [x]| - 1] == s;
  }

  /** The distinct keys of `s`, in order of first occurrence (a dict's key order). */
  function DistinctKeys<T, K(==)>(s: seq<T>, key: T -> K): seq<K> {
    if |s| == 0 then []
    else
      var r := DistinctKeys(s[..|s| - 1], key);
      if key(s[|s| - 1]) in r then r else r + [key(s[|s| - 1])]
  }

  /** Appending one element adds its key at the end, unless the key was seen before. */
  lemma DistinctKeysSnoc<T, K>(s: seq<T>, x: T, key: T -> K)
    ensures DistinctKeys(s + [x], key) ==
            if key(x) in DistinctKeys(s, key) then DistinctKeys(s, key) else DistinctKeys(s, key) + [key(x)]
  {
    assert (s + [x])[..|s + [x]| - 1] == s;
  }

  /** The `defaultdict` of group totals: one entry per key that occurs. */
  function GroupTotals<T, K(==)>(s: seq<T>, key: T -> K, f: T -> real): map<K, real> {
    map k | k in DistinctKeys(s, key) :: GroupSum(s, key, f, k)
  }

  /** `totals[key(x)] += f(x)`: appending one element updates the dictionary in exactly that way. */
  lemma GroupTotalsSnoc<T, K>(s: seq<T>, x: T, key: T -> K, f: T -> real)
    ensures var t := GroupTotals(s, key, f);
            GroupTotals(s + [x], key, f) == t[key(x) := (if key(x) in t then t[key(x)] else 0.0) + f(x)]
  {
    var t, t' := GroupTotals(s, key, f), GroupTotals(s + [x], key, f);
    DistinctKeysSnoc(s, x, key);
    if key(x) !in t {
      DistinctKeysSpec(s, key);
      GroupSumAbsent(s, key, f, key(x));
    }
    forall k | k in t'
      ensures t'[k] == t[key(x) := (if key(x) in t then t[key(x)] else 0.0) + f(x)][k]
    {
      GroupSumSnoc(s, x, key, f, k);
    }
  }

  ghost predicate NoDuplicates<K>(ks: seq<K>) {
    forall i, j :: 0 <= i < j < |ks| ==> ks[i] != ks[j]
  }

  /** The distinct keys are exactly the keys that occur, each once. */
  lemma {:induction false} DistinctKeysSpec<T, K>(s: seq<T>, key: T -> K)
    ensures NoDuplicates(DistinctKeys(s, key))
    ensures forall i :: 0 <= i < |s| ==> key(s[i]) in DistinctKeys(s, key)
    ensures forall k :: k in DistinctKeys(s, key) ==> exists i :: 0 <= i < |s| && key(s[i]) == k
  {
    if |s| > 0 {
      var p := s[..|s| - 1];
      DistinctKeysSpec(p, key);
      forall k | k in DistinctKeys(s, key)
        ensures exists i :: 0 <= i < |s| && key(s[i]) == k
      {
        if k in DistinctKeys(p, key) {
          var i :| 0 <= i < |p| && key(p[i]) == k;
          assert key(s[i]) == k;
        } else {
          assert key(s[|s| - 1]) == k;
        }
      }
      forall i | 0 <= i < |s|
        ensures key(s[i]) in DistinctKeys(s, key)
      {
        if i < |s| - 1 {
          assert key(p[i]) in DistinctKeys(p, key);
        }
      }
    }
  }

  /** A group no element falls into has total zero. */
  lemma {:induction false} GroupSumAbsent<T, K>(s: seq<T>, key: T -> K, f: T -> real, k: K)
    requires forall i :: 0 <= i < |s| ==> key(s[i]) != k
    ensures GroupSum(s, key, f, k) == 0.0
  {
    if |s| > 0 {
      GroupSumAbsent(s[..|s| - 1], key, f, k);
    }
  }

  /** A key that occurs in one arrangement of the elements occurs in any other. */
  lemma DistinctKeysPermutation<T, K>(a: seq<T>, b: seq<T>, key: T -> K, k: K)
    requires multiset(a) == multiset(b) && k in DistinctKeys(a, key)
    ensures k in DistinctKeys(b, key)
  {
    DistinctKeysSpec(a, key);
    DistinctKeysSpec(b, key);
    var i :| 0 <= i < |a| && key(a[i]) == k;
    assert a[i] in multiset(b);
    var j :| 0 <= j < |b| && b[j] == a[i];
  }

  /** Group totals do not depend on the order of the elements. */
  lemma GroupSumPermutation<T, K>(a: seq<T>, b: seq<T>, key: T -> K, f: T -> real, k: K)
    requires multiset(a) == multiset(b)
    ensures GroupSum(a, key, f, k) == GroupSum(b, key, f, k)
  {
    SumPermutation(a, b, InGroup(key, f, k));
  }

  /** The dictionary of group totals does not depend on the order of the elements. */
  lemma GroupTotalsPermutation<T, K>(a: seq<T>, b: seq<T>, key: T -> K, f: T -> real)
    requires multiset(a) == multiset(b)
    ensures GroupTotals(a, key, f) == GroupTotals(b, key, f)
  {
    var ta, tb := GroupTotals(a, key, f), GroupTotals(b, key, f);
    forall k | k in ta ensures k in tb {
      DistinctKeysPermutation(a, b, key, k);
    }
    forall k | k in tb ensures k in ta {
      DistinctKeysPermutation(b, a, key, k);
    }
    forall k | k in ta.Keys ensures ta[k] == tb[k] {
      GroupSumPermutation(a, b, key, f, k);
    }
  }

  /** `sum(totals[k] for k in ks)`. */
  function SumGroups<T, K(==)>(ks: seq<K>, s: seq<T>, key: T -> K, f: T -> real): real {
    if |ks| == 0 then 0.0 else SumGroups(ks[..|ks| - 1], s, key, f) + GroupSum(s, key, f, ks[|ks| - 1])
  }

  /** Adding one element `x` to `s` raises exactly the group of `x`, once. */
  lemma {:induction false} SumGroupsStep<T, K>(ks: seq<K>, s: seq<T>, x: T, key: T -> K, f: T -> real)
    requires NoDuplicates(ks)
    ensures SumGroups(ks, s + [x], key, f)
            == SumGroups(ks, s, key, f) + (if key(x) in ks then f(x) else 0.0)
  {
    if |ks| > 0 {
      var last := ks[|ks| - 1];
      var init := ks[..|ks| - 1];
      assert NoDuplicates(init);
      SumGroupsStep(init, s, x, key, f);
      assert (s + [x])[..|s + [x]| - 1] == s;
      assert key(x) in ks <==> key(x) in init || key(x) == last;
      assert key(x) == last ==> key(x) !in init;
    }
  }

  /** The group totals add up to the overall total: grouping loses and invents nothing. */
  lemma {:induction false} GroupsPartitionTotal<T, K>(s: seq<T>, key: T -> K, f: T -> real)
    ensures SumGroups(DistinctKeys(s, key), s, key, f) == Sum(s, f)
  {
    if |s| > 0 {
      var p := s[..|s| - 1];
      var x := s[|s| - 1];
      var ks := DistinctKeys(p, key);
      GroupsPartitionTotal(p, key, f);
      DistinctKeysSpec(p, key);
      assert s == p + [x];
      SumGroupsStep(ks, p, x, key, f);
      if key(x) !in ks {
        forall i | 0 <= i < |p|
          ensures key(p[i]) != key(x)
        {
          assert key(p[i]) in ks;
        }
        GroupSumAbsent(p, key, f, key(x));
        assert GroupSum(s, key, f, key(x)) == GroupSum(p, key, f, key(x)) + f(x);
        assert (ks + [key(x)])[..|ks + [key(x)]| - 1] == ks;
      }
    }
  }

  // ---------------------------------------------------------------------------
  // Percentages of a total
  // ---------------------------------------------------------------------------

  /** The unrounded percentage of `total` that group `k` holds. */
  function Share<T, K(==)>(s: seq<T>, key: T -> K, f: T -> real, k: K, total: real): real
    requires total != 0.0
  {
    GroupSum(s, key, f, k) / total * 100.0
  }

  /** `{k: round(v / total * 100, 2) for k, v in totals.items()}`: each group's rounded percentage. */
  function Percentages<K>(totals: map<K, real>, total: real): map<K, real>
    requires total != 0.0
  {
    map k | k in totals :: Round2(totals[k] / total * 100.0)
  }

  /** `sum(share[k] for k in ks)`. */
  function SumShares<T, K(==)>(ks: seq<K>, s: seq<T>, key: T -> K, f: T -> real, total: real): real
    requires total != 0.0
  {
    if |ks| == 0 then 0.0 else SumShares(ks[..|ks| - 1], s, key, f, total) + Share(s, key, f, ks[|ks| - 1], total)
  }

  lemma {:induction false} SumSharesScaled<T, K>(ks: seq<K>, s: seq<T>, key: T -> K, f: T -> real, total: real)
    requires total != 0.0
    ensures SumShares(ks, s, key, f, total) == SumGroups(ks, s, key, f) / total * 100.0
  {
    if |ks| > 0 {
      SumSharesScaled(ks[..|ks| - 1], s, key, f, total);
      var a, b := SumGroups(ks[..|ks| - 1], s, key, f), GroupSum(s, key, f, ks[|ks| - 1]);
      PercentagesAdd(a, b, total);
    }
  }

  lemma PercentagesAdd(a: real, b: real, t: real)
    requires t != 0.0
    ensures a / t * 100.0 + b / t * 100.0 == (a + b) / t * 100.0
  {
    var q1, q2 := a / t, b / t;
    assert q1 * t == a;
    assert q2 * t == b;
    assert (q1 + q2) * t == a + b;
  }

  /** Over all groups, the unrounded percentages of a nonzero total add up to 100. */
  lemma SharesSumTo100<T, K>(s: seq<T>, key: T -> K, f: T -> real)
    requires Sum(s, f) != 0.0
    ensures SumShares(DistinctKeys(s, key), s, key, f, Sum(s, f)) == 100.0
  {
    SumSharesScaled(DistinctKeys(s, key), s, key, f, Sum(s, f));
    GroupsPartitionTotal(s, key, f);
  }
}
