/**
 * The deduplicator: positions with the same symbol, chain and token/native
 * flag are merged into one entry whose amounts are summed; the entries are
 * then sorted by value, largest first.
 */
module Deduplicate {
  import opened Wrappers
  import opened Numbers
  import opened Holdings
  import opened Calculator

  /** The third component of the bucket key. */
  datatype Marker = Erc20 | Native

  /** `(symbol, chain, "erc20" | "native")`; the contract address is not part of it. */
  datatype MergeKey = MergeKey(symbol: Option<string>, chain: string, marker: Marker)

  /** An output entry: only these five fields survive the merge. */
  datatype MergedPosition = MergedPosition(symbol: Option<string>, chain: string, amount: real, currentValue: real, invested: real)

  /** A bucket of the `merged` dictionary while it is being filled. */
  datatype Bucket = Bucket(symbol: Option<string>, chain: string, amount: real, currentValue: real, invested: real)

  /** The key of a position; a missing `is_erc20` counts as a token. */
  function KeyOf(p: Position): (k: MergeKey)
    ensures k.symbol == p.symbol && k.chain == p.chain
    ensures k.marker == Native <==> p.isErc20 == Some(false)
  {
    MergeKey(p.symbol, p.chain, if p.isErc20.GetOr(true) then Erc20 else Native)
  }

  function Amount(p: Position): real { p.amount }
  function CurrentValue(p: Position): real { p.currentValue }
  /** A missing `invested` counts as zero. */
  function Invested(p: Position): real { p.invested.GetOr(0.0) }

  // ---------------------------------------------------------------------------
  // Specification
  // ---------------------------------------------------------------------------

  /** The truthy entries of the input, in order; falsy ones are skipped. */
  function Present(ps: seq<Option<Position>>): (r: seq<Position>)
    ensures |r| <= |ps|
    ensures forall p :: p in r <==> Some(p) in ps
  {
    if |ps| == 0 then []
    else Present(ps[..|ps| - 1]) + (if ps[|ps| - 1].Some? then [ps[|ps| - 1].value] else [])
  }

  /** The bucket keys in the order the dictionary first saw them. */
  function Keys(ps: seq<Option<Position>>): seq<MergeKey> {
    DistinctKeys(Present(ps), KeyOf)
  }

  /** The merged entry for key `k`: exact amount total, value and investment totals rounded to cents. */
  function Row(s: seq<Position>, k: MergeKey): MergedPosition {
    MergedPosition(k.symbol, k.chain,
                   GroupSum(s, KeyOf, Amount, k),
                   Round2(GroupSum(s, KeyOf, CurrentValue, k)),
                   Round2(GroupSum(s, KeyOf, Invested, k)))
  }

  function RowsFor(s: seq<Position>, ks: seq<MergeKey>): (r: seq<MergedPosition>)
    ensures |r| == |ks|
    ensures forall i :: 0 <= i < |ks| ==> r[i] == Row(s, ks[i])
  {
    if |ks| == 0 then [] else RowsFor(s, ks[..|ks| - 1]) + [Row(s, ks[|ks| - 1])]
  }

  /** The merged entries before sorting, one per key, in key order. */
  function Rows(ps: seq<Option<Position>>): seq<MergedPosition> {
    RowsFor(Present(ps), Keys(ps))
  }

  /** Non-increasing by current value. */
  ghost predicate SortedDesc(s: seq<MergedPosition>) {
    forall i, j :: 0 <= i < j < |s| ==> s[i].currentValue >= s[j].currentValue
  }

  /** Inserts `x` after every entry whose value is at least its own (from the back). */
  function InsertDesc(s: seq<MergedPosition>, x: MergedPosition): seq<MergedPosition> {
    if |s| == 0 then [x]
    else if s[|s| - 1].currentValue >= x.currentValue then s + [x]
    else InsertDesc(s[..|s| - 1], x) + [s[|s| - 1]]
  }

  /** `list.sort(key=current_value, reverse=True)`: a stable sort, largest value first. */
  function SortDesc(s: seq<MergedPosition>): seq<MergedPosition> {
    if |s| == 0 then [] else InsertDesc(SortDesc(s[..|s| - 1]), s[|s| - 1])
  }

  // ---------------------------------------------------------------------------
  // The imperative code
  // ---------------------------------------------------------------------------

  /** The bucket of key `k` once every position of `s` has been added. */
  function BucketOf(s: seq<Position>, k: MergeKey): Bucket {
    Bucket(k.symbol, k.chain,
           GroupSum(s, KeyOf, Amount, k), GroupSum(s, KeyOf, CurrentValue, k), GroupSum(s, KeyOf, Invested, k))
  }

  /** Adding a position changes only its own bucket, by its own amounts. */
  lemma BucketOfSnoc(s: seq<Position>, p: Position, k: MergeKey)
    ensures BucketOf(s + [p], k) ==
            if KeyOf(p) == k then BucketOf(s, k).(amount := BucketOf(s, k).amount + p.amount,
                                                  currentValue := BucketOf(s, k).currentValue + p.currentValue,
                                                  invested := BucketOf(s, k).invested + p.invested.GetOr(0.0))
            else BucketOf(s, k)
  {
    GroupSumSnoc(s, p, KeyOf, Amount, k);
    GroupSumSnoc(s, p, KeyOf, CurrentValue, k);
    GroupSumSnoc(s, p, KeyOf, Invested, k);
  }

  /** A key not seen yet has an empty bucket. */
  lemma BucketOfUnseen(s: seq<Position>, k: MergeKey)
    requires k !in DistinctKeys(s, KeyOf)
    ensures BucketOf(s, k) == Bucket(k.symbol, k.chain, 0.0, 0.0, 0.0)
  {
    DistinctKeysSpec(s, KeyOf);
    forall j | 0 <= j < |s|
      ensures KeyOf(s[j]) != k
    {
      assert KeyOf(s[j]) in DistinctKeys(s, KeyOf);
    }
    GroupSumAbsent(s, KeyOf, Amount, k);
    GroupSumAbsent(s, KeyOf, CurrentValue, k);
    GroupSumAbsent(s, KeyOf, Invested, k);
  }

  /**
   * `deduplicate_positions`: fills the buckets in one pass, turns them into
   * entries in key order, rounds the value and investment totals and sorts.
   */
  method DeduplicatePositions(ps: seq<Option<Position>>) returns (result: seq<MergedPosition>)
    ensures result == SortDesc(Rows(ps))
  {
    var merged, order := FillBuckets(ps);
    var rows: seq<MergedPosition> := [];
    for j := 0 to |order|
      invariant rows == RowsFor(Present(ps), order[..j])
    {
      assert order[..j + 1][..j] == order[..j];
      var bucket := merged[order[j]];
      rows := rows + [MergedPosition(bucket.symbol, bucket.chain, bucket.amount,
                                     Round2(bucket.currentValue), Round2(bucket.invested))];
    }
    assert order[..|order|] == order;
    var a := new MergedPosition[|rows|](i requires 0 <= i < |rows| => rows[i]);
    assert a[..] == rows;
    SortByValueDesc(a);
    result := a[..];
  }

  /**
   * The first loop of `deduplicate_positions`: skips falsy entries and adds
   * each position to the bucket of its key, creating buckets in the order
   * keys are first seen. A bucket takes its symbol and chain from the first
   * position whose symbol is truthy; every position of a bucket has the
   * key's symbol and chain, so these are the key's.
   */
  method FillBuckets(ps: seq<Option<Position>>) returns (merged: map<MergeKey, Bucket>, order: seq<MergeKey>)
    ensures order == Keys(ps)
    ensures forall k :: k in merged <==> k in order
    ensures forall k :: k in merged ==> merged[k] == BucketOf(Present(ps), k)
  {
    merged, order := map[], [];
    for i := 0 to |ps|
      invariant order == Keys(ps[..i])
      invariant forall k :: k in merged <==> k in order
      invariant forall k :: k in merged ==> merged[k] == BucketOf(Present(ps[..i]), k)
    {
      assert ps[..i + 1][..i] == ps[..i];
      if ps[i].None? {
        assert Present(ps[..i + 1]) == Present(ps[..i]);
        continue;
      }
      var pos := ps[i].value;
      assert Present(ps[..i + 1]) == Present(ps[..i]) + [pos];
      merged, order := AddPosition(merged, order, pos, Present(ps[..i]));
    }
    assert ps[..|ps|] == ps;
  }

  /** One iteration of the first loop: the position goes into the bucket of its key. */
  method AddPosition(merged: map<MergeKey, Bucket>, order: seq<MergeKey>, pos: Position, ghost prefix: seq<Position>)
    returns (merged': map<MergeKey, Bucket>, order': seq<MergeKey>)
    requires order == DistinctKeys(prefix, KeyOf)
    requires forall k :: k in merged <==> k in order
    requires forall k :: k in merged ==> merged[k] == BucketOf(prefix, k)
    ensures order' == DistinctKeys(prefix + [pos], KeyOf)
    ensures forall k :: k in merged' <==> k in order'
    ensures forall k :: k in merged' ==> merged'[k] == BucketOf(prefix + [pos], k)
  {
    var key := if pos.isErc20.GetOr(true) then MergeKey(pos.symbol, pos.chain, Erc20)
               else MergeKey(pos.symbol, pos.chain, Native);
    DistinctKeysSnoc(prefix, pos, KeyOf);
    var bucket := if key in merged then merged[key] else Bucket(Some(""), "", 0.0, 0.0, 0.0);
    if key !in merged {
      BucketOfUnseen(prefix, key);
    }
    if !Truthy(bucket.symbol) {
      bucket := bucket.(symbol := pos.symbol, chain := pos.chain);
    }
    bucket := bucket.(amount := bucket.amount + pos.amount,
                      currentValue := bucket.currentValue + pos.currentValue,
                      invested := bucket.invested + pos.invested.GetOr(0.0));
    assert key == KeyOf(pos);
    assert bucket == BucketOf(prefix + [pos], key) by {
      BucketOfSnoc(prefix, pos, key);
    }
    forall k | k in merged && k != key
      ensures BucketOf(prefix + [pos], k) == merged[k]
    {
      BucketOfSnoc(prefix, pos, k);
    }
    order' := if key in merged then order else order + [key];
    merged' := merged[key := bucket];
  }

  /** The in-place stable sort behind `result.sort(...)`: insertion sort, shifting smaller values right. */
  method SortByValueDesc(a: array<MergedPosition>)
    modifies a
    ensures a[..] == SortDesc(old(a[..]))
  {
    ghost var orig := a[..];
    for i := 0 to a.Length
      invariant a[..i] == SortDesc(orig[..i])
      invariant a[i..] == orig[i..]
    {
      assert orig[..i + 1][..i] == orig[..i];
      assert a[i] == orig[i];
      InsertNext(a, i);
    }
    assert orig[..a.Length] == orig;
  }

  /** One step of the insertion sort: moves `a[i]` into place within `a[..i + 1]`. */
  method InsertNext(a: array<MergedPosition>, i: int)
    requires 0 <= i < a.Length
    modifies a
    ensures a[..i + 1] == InsertDesc(old(a[..i]), old(a[i]))
    ensures a[i + 1..] == old(a[i + 1..])
  {
    ghost var sorted := a[..i];
    var x := a[i];
    var j := i;
    while j > 0 && a[j - 1].currentValue < x.currentValue
      invariant 0 <= j <= i
      invariant forall k :: 0 <= k < j ==> a[k] == sorted[k]
      invariant forall k :: j < k <= i ==> a[k] == sorted[k - 1]
      invariant forall k :: i < k < a.Length ==> a[k] == old(a[k])
      invariant forall k :: j <= k < i ==> sorted[k].currentValue < x.currentValue
    {
      a[j] := a[j - 1];
      j := j - 1;
    }
    a[j] := x;
    InsertDescAt(sorted, j, x);
    InsertedAt(a[..i + 1], sorted, j, x);
  }

  /** `x` lands right after the last entry whose value is at least its own. */
  lemma {:induction false} InsertDescAt(sorted: seq<MergedPosition>, j: int, x: MergedPosition)
    requires 0 <= j <= |sorted|
    requires j == 0 || sorted[j - 1].currentValue >= x.currentValue
    requires forall k :: j <= k < |sorted| ==> sorted[k].currentValue < x.currentValue
    ensures InsertDesc(sorted, x) == sorted[..j] + [x] + sorted[j..]
  {
    if j < |sorted| {
      var n := |sorted| - 1;
      InsertDescAt(sorted[..n], j, x);
      assert sorted[..n][..j] == sorted[..j];
      assert sorted[j..] == sorted[..n][j..] + [sorted[n]];
    } else {
      assert sorted[..j] == sorted;
    }
  }

  /** A sequence that agrees pointwise with `sorted` with `x` inserted at `j` is that insertion. */
  lemma InsertedAt(s: seq<MergedPosition>, sorted: seq<MergedPosition>, j: int, x: MergedPosition)
    requires 0 <= j <= |sorted| && |s| == |sorted| + 1 && s[j] == x
    requires forall k :: 0 <= k < j ==> s[k] == sorted[k]
    requires forall k :: j < k < |s| ==> s[k] == sorted[k - 1]
    ensures s == sorted[..j] + [x] + sorted[j..]
  {
  }

  // ---------------------------------------------------------------------------
  // Properties of the sort
  // ---------------------------------------------------------------------------

  lemma {:induction false} InsertDescPermutation(s: seq<MergedPosition>, x: MergedPosition)
    ensures multiset(InsertDesc(s, x)) == multiset(s) + multiset{x}
  {
    if |s| > 0 && s[|s| - 1].currentValue < x.currentValue {
      InsertDescPermutation(s[..|s| - 1], x);
      assert s == s[..|s| - 1] + [s[|s| - 1]];
    }
  }

  /** Sorting only reorders: the output is a permutation of the input. */
  lemma {:induction false} SortDescPermutation(s: seq<MergedPosition>)
    ensures multiset(SortDesc(s)) == multiset(s)
  {
    if |s| > 0 {
      var init, last := s[..|s| - 1], s[|s| - 1];
      SortDescPermutation(init);
      InsertDescPermutation(SortDesc(init), last);
      MultisetOfInitLast(s);
    }
  }

  /** A non-empty sequence holds the elements of its prefix and its last element. */
  lemma MultisetOfInitLast(s: seq<MergedPosition>)
    requires |s| > 0
    ensures multiset(s) == multiset(s[..|s| - 1]) + multiset{s[|s| - 1]}
  {
    assert s == s[..|s| - 1] + [s[|s| - 1]];
  }

  lemma {:induction false} InsertDescSorted(s: seq<MergedPosition>, x: MergedPosition)
    requires SortedDesc(s)
    ensures SortedDesc(InsertDesc(s, x))
  {
    if |s| > 0 && s[|s| - 1].currentValue < x.currentValue {
      var init, last := s[..|s| - 1], s[|s| - 1];
      InsertDescSorted(init, x);
      var r := InsertDesc(init, x);
      InsertDescPermutation(init, x);
      forall i | 0 <= i < |r|
        ensures r[i].currentValue >= last.currentValue
      {
        assert r[i] in multiset(init) + multiset{x};
        if r[i] != x {
          assert r[i] in init;
        }
      }
    }
  }

  /** The output is ordered by value, largest first. */
  lemma {:induction false} SortDescSorted(s: seq<MergedPosition>)
    ensures SortedDesc(SortDesc(s))
  {
    if |s| > 0 {
      SortDescSorted(s[..|s| - 1]);
      InsertDescSorted(SortDesc(s[..|s| - 1]), s[|s| - 1]);
    }
  }

  /** The entries of `s` whose value is `v`, in order. */
  function WithValue(s: seq<MergedPosition>, v: real): seq<MergedPosition> {
    if |s| == 0 then []
    else WithValue(s[..|s| - 1], v) + (if s[|s| - 1].currentValue == v then [s[|s| - 1]] else [])
  }

  lemma {:induction false} WithValueAppend(a: seq<MergedPosition>, b: seq<MergedPosition>, v: real)
    ensures WithValue(a + b, v) == WithValue(a, v) + WithValue(b, v)
  {
    if |b| > 0 {
      assert (a + b)[..|a + b| - 1] == a + b[..|b| - 1];
      WithValueAppend(a, b[..|b| - 1], v);
    } else {
      assert a + b == a;
    }
  }

  lemma {:induction false} InsertDescStable(s: seq<MergedPosition>, x: MergedPosition, v: real)
    requires SortedDesc(s)
    ensures WithValue(InsertDesc(s, x), v) == WithValue(s, v) + (if x.currentValue == v then [x] else [])
  {
    if |s| == 0 {
    } else if s[|s| - 1].currentValue >= x.currentValue {
      WithValueAppend(s, [x], v);
    } else {
      var init, last := s[..|s| - 1], s[|s| - 1];
      InsertDescStable(init, x, v);
      WithValueAppend(InsertDesc(init, x), [last], v);
    }
  }

  /** The sort is stable: entries of equal value keep their relative order. */
  lemma {:induction false} SortDescStable(s: seq<MergedPosition>, v: real)
    ensures WithValue(SortDesc(s), v) == WithValue(s, v)
  {
    if |s| > 0 {
      SortDescStable(s[..|s| - 1], v);
      SortDescSorted(s[..|s| - 1]);
      InsertDescStable(SortDesc(s[..|s| - 1]), s[|s| - 1], v);
    }
  }

  // ---------------------------------------------------------------------------
  // Properties of the merge
  // ---------------------------------------------------------------------------

  function RowAmount(r: MergedPosition): real { r.amount }

  lemma {:induction false} RowsForAmounts(s: seq<Position>, ks: seq<MergeKey>)
    ensures Sum(RowsFor(s, ks), RowAmount) == SumGroups(ks, s, KeyOf, Amount)
  {
    if |ks| > 0 {
      RowsForAmounts(s, ks[..|ks| - 1]);
      var r := RowsFor(s, ks);
      assert r[..|r| - 1] == RowsFor(s, ks[..|ks| - 1]);
    }
  }

  /**
   * Amounts are conserved exactly: the merged entries' amounts add up to the
   * amounts of the input positions; the value and investment totals add up
   * likewise before each is rounded.
   */
  lemma AmountConserved(ps: seq<Option<Position>>)
    ensures Sum(SortDesc(Rows(ps)), RowAmount) == Sum(Present(ps), Amount)
    ensures SumGroups(Keys(ps), Present(ps), KeyOf, CurrentValue) == Sum(Present(ps), CurrentValue)
    ensures SumGroups(Keys(ps), Present(ps), KeyOf, Invested) == Sum(Present(ps), Invested)
  {
    SortDescPermutation(Rows(ps));
    SumPermutation(SortDesc(Rows(ps)), Rows(ps), RowAmount);
    RowsForAmounts(Present(ps), Keys(ps));
    GroupsPartitionTotal(Present(ps), KeyOf, Amount);
    GroupsPartitionTotal(Present(ps), KeyOf, CurrentValue);
    GroupsPartitionTotal(Present(ps), KeyOf, Invested);
  }

  /**
   * One entry per distinct key: the entries correspond one to one to the
   * keys, each key occurs once, every input position's key is among them,
   * and every entry's symbol and chain are those of some input position, so
   * nothing merges across chains.
   */
  lemma OneRowPerKey(ps: seq<Option<Position>>)
    ensures |Rows(ps)| == |Keys(ps)|
    ensures NoDuplicates(Keys(ps))
    ensures forall i :: 0 <= i < |Rows(ps)| ==> Rows(ps)[i] == Row(Present(ps), Keys(ps)[i])
    ensures forall j :: 0 <= j < |Present(ps)| ==> KeyOf(Present(ps)[j]) in Keys(ps)
    ensures forall i :: 0 <= i < |Rows(ps)| ==>
              exists j :: 0 <= j < |Present(ps)| && KeyOf(Present(ps)[j]) == Keys(ps)[i]
                          && Present(ps)[j].symbol == Rows(ps)[i].symbol && Present(ps)[j].chain == Rows(ps)[i].chain
  {
    DistinctKeysSpec(Present(ps), KeyOf);
    forall i | 0 <= i < |Rows(ps)|
      ensures exists j :: 0 <= j < |Present(ps)| && KeyOf(Present(ps)[j]) == Keys(ps)[i]
                          && Present(ps)[j].symbol == Rows(ps)[i].symbol && Present(ps)[j].chain == Rows(ps)[i].chain
    {
      assert Keys(ps)[i] in Keys(ps);
      var j :| 0 <= j < |Present(ps)| && KeyOf(Present(ps)[j]) == Keys(ps)[i];
    }
  }

  /** Reordering the input changes neither the set of buckets nor their totals before rounding. */
  lemma PermutationInvariant(ps1: seq<Option<Position>>, ps2: seq<Option<Position>>, k: MergeKey)
    requires multiset(Present(ps1)) == multiset(Present(ps2))
    ensures k in Keys(ps1) <==> k in Keys(ps2)
    ensures BucketOf(Present(ps1), k) == BucketOf(Present(ps2), k)
  {
    var s1, s2 := Present(ps1), Present(ps2);
    if k in Keys(ps1) {
      DistinctKeysPermutation(s1, s2, KeyOf, k);
    }
    if k in Keys(ps2) {
      DistinctKeysPermutation(s2, s1, KeyOf, k);
    }
    GroupSumPermutation(s1, s2, KeyOf, Amount, k);
    GroupSumPermutation(s1, s2, KeyOf, CurrentValue, k);
    GroupSumPermutation(s1, s2, KeyOf, Invested, k);
  }

  lemma {:induction false} PresentAppend(a: seq<Option<Position>>, b: seq<Option<Position>>)
    ensures Present(a + b) == Present(a) + Present(b)
  {
    if |b| > 0 {
      assert (a + b)[..|a + b| - 1] == a + b[..|b| - 1];
      PresentAppend(a, b[..|b| - 1]);
    } else {
      assert a + b == a;
    }
  }

  /** A falsy entry anywhere in the input changes nothing. */
  lemma FalsyEntrySkipped(ps: seq<Option<Position>>, i: int)
    requires 0 <= i <= |ps|
    ensures Rows(ps[..i] + [None] + ps[i..]) == Rows(ps)
  {
    var before, after := ps[..i], ps[i..];
    var none: seq<Option<Position>> := [None];
    assert Present(none) == [] by {
      assert none[..0] == [];
    }
    PresentAppend(before, none);
    PresentAppend(before + none, after);
    PresentAppend(before, after);
    assert before + after == ps;
    assert Present(before + none + after) == Present(ps);
  }
}
