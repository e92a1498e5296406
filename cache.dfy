/**
 * The holdings cache: a table of rows keyed by (wallet, chain, asset key),
 * each holding one holding and the time it was written. The database is an
 * in-memory map and the clock is the `now` parameter.
 */
module HoldingsCache {
  import opened Wrappers
  import opened Holdings

  /** How an f-string renders an optional string: None becomes "None". */
  function Render(s: Option<string>): string {
    if s.Some? then s.value else "None"
  }

  /** The text that identifies a holding within its chain: the contract of a token, the symbol of a native coin. */
  function Identity(h: Holding): string {
    if h.isErc20 then Render(h.contractAddress) else Render(h.symbol)
  }

  /** `_holding_key`: "chain:contract_address" for a token, "chain:symbol" otherwise. */
  function HoldingKey(h: Holding): (k: string)
    ensures |k| == |h.chain| + 1 + |Identity(h)|
    ensures k[..|h.chain|] == h.chain && k[|h.chain|] == ':' && k[|h.chain| + 1..] == Identity(h)
  {
    h.chain + ":" + Identity(h)
  }

  /**
   * Two holdings on chains without a colon in their names have the same key
   * exactly when they are on the same chain and have the same identity.
   */
  lemma HoldingKeyInjective(a: Holding, b: Holding)
    requires ':' !in a.chain && ':' !in b.chain
    ensures HoldingKey(a) == HoldingKey(b) <==> a.chain == b.chain && Identity(a) == Identity(b)
  {
  }

  /** A native coin whose symbol equals a token's contract text shares the token's key. */
  lemma NativeAndTokenCanCollide(chain: string, text: string, n: Holding, t: Holding)
    requires n.chain == chain && !n.isErc20 && n.symbol == Some(text)
    requires t.chain == chain && t.isErc20 && t.contractAddress == Some(text)
    ensures HoldingKey(n) == HoldingKey(t)
  {
  }

  datatype RowKey = RowKey(wallet: string, chain: string, assetKey: string)

  /** A row's payload and its `updated_at`. */
  datatype Row = Row(payload: Holding, updatedAt: int)

  /** Every row is filed under its holding's key. */
  ghost predicate KeysMatch(rows: map<RowKey, Row>) {
    forall k {:trigger FiledUnder(rows, k)} :: k in rows ==> FiledUnder(rows, k)
  }

  /** The row under `k` holds a holding whose key is `k`'s asset key. */
  ghost predicate FiledUnder(rows: map<RowKey, Row>, k: RowKey)
    requires k in rows
  {
    k.assetKey == HoldingKey(rows[k].payload)
  }

  /** The table after `INSERT OR REPLACE` of each holding in turn, all stamped `now`. */
  function Written(rows: map<RowKey, Row>, wallet: string, chain: string, hs: seq<Holding>, now: int): map<RowKey, Row> {
    if |hs| == 0 then rows
    else
      var h := hs[|hs| - 1];
      Written(rows, wallet, chain, hs[..|hs| - 1], now)[RowKey(wallet, chain, HoldingKey(h)) := Row(h, now)]
  }

  /** The keys of the rows the read query selects: this wallet and chain, written at or after `now - maxAge`. */
  function Fresh(rows: map<RowKey, Row>, wallet: string, chain: string, maxAge: int, now: int): set<RowKey> {
    set k | k in rows && k.wallet == wallet && k.chain == chain && rows[k].updatedAt >= now - maxAge
  }

  class Cache {
    var rows: map<RowKey, Row>

    ghost predicate Valid()
      reads this
    {
      KeysMatch(rows)
    }

    /** `init_db` on a database without the table: a freshly created, empty table. */
    constructor ()
      ensures rows == map[] && Valid()
    {
      rows := map[];
    }

    /** `set_cached_holdings`: writes one row per holding, replacing any row with the same key. */
    method SetCachedHoldings(wallet: string, chain: string, holdings: seq<Holding>, now: int)
      requires Valid()
      modifies this
      ensures Valid()
      ensures rows == Written(old(rows), wallet, chain, holdings, now)
    {
      for i := 0 to |holdings|
        invariant rows == Written(old(rows), wallet, chain, holdings[..i], now)
      {
        assert holdings[..i + 1][..i] == holdings[..i];
        var h := holdings[i];
        var key := HoldingKey(h);
        rows := rows[RowKey(wallet, chain, key) := Row(h, now)];
      }
      assert holdings[..|holdings|] == holdings;
      WrittenKeysMatch(old(rows), wallet, chain, holdings, now);
    }

    /**
     * `get_cached_holdings`: None when no fresh row exists for the wallet and
     * chain; otherwise the payload of every fresh row, one per row, in the
     * order the table yields them.
     */
    method GetCachedHoldings(wallet: string, chain: string, maxAge: int, now: int) returns (r: Option<seq<Holding>>)
      requires Valid()
      ensures r.None? <==> Fresh(rows, wallet, chain, maxAge, now) == {}
      ensures r.Some? ==> Distinct(r.value)
      ensures r.Some? ==> |r.value| == |Fresh(rows, wallet, chain, maxAge, now)|
      ensures r.Some? ==> forall h :: h in r.value <==> exists k :: k in Fresh(rows, wallet, chain, maxAge, now) && rows[k].payload == h
    {
      var cutoff := now - maxAge;
      var selected := set k | k in rows && k.wallet == wallet && k.chain == chain && rows[k].updatedAt >= cutoff;
      assert selected == Fresh(rows, wallet, chain, maxAge, now);
      if selected == {} {
        return None;
      }
      var holdings: seq<Holding> := [];
      ghost var keys: seq<RowKey> := [];
      var pending := selected;
      while pending != {}
        invariant pending <= selected
        invariant |holdings| + |pending| == |selected|
        invariant |keys| == |holdings|
        invariant forall i :: 0 <= i < |keys| ==> keys[i] in selected && keys[i] !in pending
        invariant forall i :: 0 <= i < |keys| ==> holdings[i] == rows[keys[i]].payload
        invariant forall k :: k in selected && k !in pending ==> k in keys
        invariant Distinct(holdings)
        decreases |pending|
      {
        var k :| k in pending;
        var h := rows[k].payload;
        forall i | 0 <= i < |keys|
          ensures holdings[i] != h
        {
          PayloadsDistinct(rows, keys[i], k);
        }
        DistinctSnoc(holdings, h);
        holdings := holdings + [h];
        keys := keys + [k];
        pending := pending - {k};
      }
      forall h | h in holdings
        ensures exists k :: k in selected && rows[k].payload == h
      {
        var i :| 0 <= i < |holdings| && holdings[i] == h;
        assert keys[i] in selected;
      }
      forall k | k in selected
        ensures rows[k].payload in holdings
      {
        var i :| 0 <= i < |keys| && keys[i] == k;
        assert holdings[i] == rows[k].payload;
      }
      r := Some(holdings);
    }
  }

  /** No holding occurs twice. */
  predicate Distinct(hs: seq<Holding>) {
    forall i, j :: 0 <= i < j < |hs| ==> hs[i] != hs[j]
  }

  lemma DistinctSnoc(hs: seq<Holding>, h: Holding)
    requires Distinct(hs) && h !in hs
    ensures Distinct(hs + [h])
  {
  }

  /** Two rows of the same wallet and chain hold different holdings, since each is filed under its holding's key. */
  lemma PayloadsDistinct(rows: map<RowKey, Row>, k1: RowKey, k2: RowKey)
    requires KeysMatch(rows) && k1 in rows && k2 in rows
    requires k1 != k2 && k1.wallet == k2.wallet && k1.chain == k2.chain
    ensures rows[k1].payload != rows[k2].payload
  {
    assert FiledUnder(rows, k1) && FiledUnder(rows, k2);
  }

  /** Writing keeps every row filed under its holding's key. */
  lemma {:induction false} WrittenKeysMatch(rows: map<RowKey, Row>, wallet: string, chain: string, hs: seq<Holding>, now: int)
    requires KeysMatch(rows)
    ensures KeysMatch(Written(rows, wallet, chain, hs, now))
  {
    if |hs| > 0 {
      var before := Written(rows, wallet, chain, hs[..|hs| - 1], now);
      WrittenKeysMatch(rows, wallet, chain, hs[..|hs| - 1], now);
      var after := Written(rows, wallet, chain, hs, now);
      var h := hs[|hs| - 1];
      forall k | k in after
        ensures FiledUnder(after, k)
      {
        if k != RowKey(wallet, chain, HoldingKey(h)) {
          assert FiledUnder(before, k);
        }
      }
    }
  }

  /**
   * A row whose key no written holding has (or that belongs to another
   * wallet or chain) is exactly as it was.
   */
  lemma {:induction false} WrittenOthersUntouched(rows: map<RowKey, Row>, wallet: string, chain: string,
                                                 hs: seq<Holding>, now: int, k: RowKey)
    requires k.wallet != wallet || k.chain != chain || forall i :: 0 <= i < |hs| ==> HoldingKey(hs[i]) != k.assetKey
    ensures k in Written(rows, wallet, chain, hs, now) <==> k in rows
    ensures k in rows ==> Written(rows, wallet, chain, hs, now)[k] == rows[k]
  {
    if |hs| > 0 {
      WrittenOthersUntouched(rows, wallet, chain, hs[..|hs| - 1], now, k);
    }
  }

  /**
   * The row of a written holding holds the last holding with its key and the
   * time of the write: a later holding with the same key replaces an earlier one.
   */
  lemma {:induction false} WrittenLastWins(rows: map<RowKey, Row>, wallet: string, chain: string,
                                          hs: seq<Holding>, now: int, i: int)
    requires 0 <= i < |hs|
    requires forall j :: i < j < |hs| ==> HoldingKey(hs[j]) != HoldingKey(hs[i])
    ensures RowKey(wallet, chain, HoldingKey(hs[i])) in Written(rows, wallet, chain, hs, now)
    ensures Written(rows, wallet, chain, hs, now)[RowKey(wallet, chain, HoldingKey(hs[i]))] == Row(hs[i], now)
  {
    if i < |hs| - 1 {
      WrittenLastWins(rows, wallet, chain, hs[..|hs| - 1], now, i);
    }
  }

  /**
   * After a write, every row either is an untouched old row or belongs to the
   * written wallet and chain and carries the write's time stamp `now`.
   */
  lemma {:induction false} WrittenStamped(rows: map<RowKey, Row>, wallet: string, chain: string,
                                         hs: seq<Holding>, now: int, k: RowKey)
    requires k in Written(rows, wallet, chain, hs, now)
    ensures || (k in rows && Written(rows, wallet, chain, hs, now)[k] == rows[k])
            || (k.wallet == wallet && k.chain == chain && Written(rows, wallet, chain, hs, now)[k].updatedAt == now)
  {
    if |hs| > 0 && k != RowKey(wallet, chain, HoldingKey(hs[|hs| - 1])) {
      WrittenStamped(rows, wallet, chain, hs[..|hs| - 1], now, k);
    }
  }

  /**
   * Reading right after a write (with a non-negative maximum age) finds every
   * holding that was the last of its key in the write.
   */
  lemma ReadAfterWrite(rows: map<RowKey, Row>, wallet: string, chain: string, hs: seq<Holding>,
                       now: int, maxAge: int, i: int)
    requires maxAge >= 0 && 0 <= i < |hs|
    requires forall j :: i < j < |hs| ==> HoldingKey(hs[j]) != HoldingKey(hs[i])
    ensures var k := RowKey(wallet, chain, HoldingKey(hs[i]));
            k in Fresh(Written(rows, wallet, chain, hs, now), wallet, chain, maxAge, now) &&
            Written(rows, wallet, chain, hs, now)[k].payload == hs[i]
  {
    WrittenLastWins(rows, wallet, chain, hs, now, i);
  }
}
