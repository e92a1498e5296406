/**
 * Discovery of a wallet's token contracts: RouteScan's log index first, a
 * node's Transfer logs as the fallback. The RouteScan response, the node's
 * state and its `eth_getLogs` answer are inputs; None stands for a call that
 * raised. `getLogs` is whatever the node returns for the query as written,
 * whose third topic is the Keccak hash of the lower-cased wallet rather than
 * the padded address; which logs that selects is not modelled.
 */
module Erc20Discovery {
  import opened Wrappers
  import opened Text
  import opened Holdings

  /** How many blocks back the node's logs are searched. */
  const DefaultBlockLookback: int := 3000000

  /** One RouteScan log item; its `address` may be missing or null. */
  datatype LogItem = LogItem(address: Option<string>)

  /** What the node answers before the log query: whether it is connected, and its latest block (None if that call raised). */
  datatype RpcNode = RpcNode(connected: bool, blockNumber: Option<int>)

  /** `max(0, latest_block - DEFAULT_BLOCK_LOOKBACK)`: never negative, never after the latest block, at most the lookback behind it. */
  function FromBlock(latest: int): (b: int)
    ensures b >= 0
    ensures latest >= 0 ==> b <= latest
    ensures latest - b <= DefaultBlockLookback
    ensures b == 0 || latest - b == DefaultBlockLookback
  {
    if latest - DefaultBlockLookback > 0 then latest - DefaultBlockLookback else 0
  }

  // ---------------------------------------------------------------------------
  // Address extraction
  // ---------------------------------------------------------------------------

  /** The lower-cased addresses of the items that have one. */
  function RoutescanContracts(items: seq<LogItem>): set<string> {
    set i | 0 <= i < |items| && Truthy(items[i].address) :: Lower(items[i].address.value)
  }

  /** The lower-cased addresses of the node's logs. */
  function RpcContracts(logs: seq<string>): set<string> {
    set i | 0 <= i < |logs| :: Lower(logs[i])
  }

  /** The address-collecting loop of `_discover_via_routescan`. */
  method ContractsFromItems(items: seq<LogItem>) returns (contracts: set<string>)
    ensures contracts == RoutescanContracts(items)
  {
    contracts := {};
    for i := 0 to |items|
      invariant contracts == RoutescanContracts(items[..i])
    {
      var contract := items[i].address;
      if Truthy(contract) {
        contracts := contracts + {Lower(contract.value)};
      }
      assert RoutescanContracts(items[..i + 1]) ==
             RoutescanContracts(items[..i]) + (if Truthy(items[i].address) then {Lower(items[i].address.value)} else {});
    }
    assert items[..|items|] == items;
  }

  /** The address-collecting loop of `_discover_via_rpc`. */
  method ContractsFromLogs(logs: seq<string>) returns (contracts: set<string>)
    ensures contracts == RpcContracts(logs)
  {
    contracts := {};
    for i := 0 to |logs|
      invariant contracts == RpcContracts(logs[..i])
    {
      contracts := contracts + {Lower(logs[i])};
      assert RpcContracts(logs[..i + 1]) == RpcContracts(logs[..i]) + {Lower(logs[i])};
    }
    assert logs[..|logs|] == logs;
  }

  /** `_discover_via_rpc`: None when the node is not connected or a call raises. */
  function ViaRpc(node: RpcNode, getLogs: int -> Option<seq<string>>): Option<set<string>> {
    if !node.connected || node.blockNumber.None? then None
    else
      var logs := getLogs(FromBlock(node.blockNumber.value));
      if logs.None? then None else Some(RpcContracts(logs.value))
  }

  method DiscoverViaRpc(node: RpcNode, getLogs: int -> Option<seq<string>>) returns (r: Option<set<string>>)
    ensures r == ViaRpc(node, getLogs)
  {
    if !node.connected {
      return None;
    }
    if node.blockNumber.None? {
      return None;
    }
    var latestBlock := node.blockNumber.value;
    var fromBlock := if latestBlock - DefaultBlockLookback > 0 then latestBlock - DefaultBlockLookback else 0;
    var logs := getLogs(fromBlock);
    if logs.None? {
      return None;
    }
    var contracts := ContractsFromLogs(logs.value);
    r := Some(contracts);
  }

  // ---------------------------------------------------------------------------
  // Fallback policy
  // ---------------------------------------------------------------------------

  /** RouteScan is asked only with an API key and a nonzero chain id. */
  predicate RoutescanEnabled(apiKey: Option<string>, chainId: Option<int>) {
    Truthy(apiKey) && chainId.Some? && chainId.value != 0
  }

  /**
   * The discovered set: RouteScan's when it is asked, answers and finds
   * something; otherwise the node's, or nothing when the node fails.
   */
  function Discovered(apiKey: Option<string>, chainId: Option<int>, routescan: Option<seq<LogItem>>,
                      node: RpcNode, getLogs: int -> Option<seq<string>>): set<string> {
    if RoutescanEnabled(apiKey, chainId) && routescan.Some? && RoutescanContracts(routescan.value) != {} then
      RoutescanContracts(routescan.value)
    else
      ViaRpc(node, getLogs).GetOr({})
  }

  /**
   * `discover_erc20_contracts`: None when the wallet address is invalid (the
   * checksum conversion raises before any fallback); otherwise the discovered
   * contracts, sorted, each once.
   */
  method DiscoverErc20Contracts(addressValid: bool, apiKey: Option<string>, chainId: Option<int>,
                                routescan: Option<seq<LogItem>>, node: RpcNode, getLogs: int -> Option<seq<string>>)
    returns (r: Option<seq<string>>)
    ensures r.None? <==> !addressValid
    ensures r.Some? ==> StrictlySorted(r.value)
    ensures r.Some? ==> forall a :: a in r.value <==> a in Discovered(apiKey, chainId, routescan, node, getLogs)
  {
    if !addressValid {
      return None;
    }
    if Truthy(apiKey) && chainId.Some? && chainId.value != 0 && routescan.Some? {
      var contracts := ContractsFromItems(routescan.value);
      if contracts != {} {
        var sortedContracts := SortedList(contracts);
        return Some(sortedContracts);
      }
    }
    var found := DiscoverViaRpc(node, getLogs);
    if found.Some? {
      var sortedContracts := SortedList(found.value);
      return Some(sortedContracts);
    }
    return Some([]);
  }

  /** Every discovered contract is lower case. */
  lemma DiscoveredLowercase(apiKey: Option<string>, chainId: Option<int>, routescan: Option<seq<LogItem>>,
                            node: RpcNode, getLogs: int -> Option<seq<string>>, a: string)
    requires a in Discovered(apiKey, chainId, routescan, node, getLogs)
    ensures Lower(a) == a
  {
    if RoutescanEnabled(apiKey, chainId) && routescan.Some? && RoutescanContracts(routescan.value) != {} {
      var items := routescan.value;
      var i :| 0 <= i < |items| && Truthy(items[i].address) && Lower(items[i].address.value) == a;
      LowerIdempotent(items[i].address.value);
    } else {
      var logs := getLogs(FromBlock(node.blockNumber.value)).value;
      var i :| 0 <= i < |logs| && Lower(logs[i]) == a;
      LowerIdempotent(logs[i]);
    }
  }

  /** Without an API key or a chain id, or when RouteScan raises or finds nothing, the node decides. */
  lemma FallbackToRpc(apiKey: Option<string>, chainId: Option<int>, routescan: Option<seq<LogItem>>,
                      node: RpcNode, getLogs: int -> Option<seq<string>>)
    requires !RoutescanEnabled(apiKey, chainId) || routescan.None? || RoutescanContracts(routescan.value) == {}
    ensures Discovered(apiKey, chainId, routescan, node, getLogs) == ViaRpc(node, getLogs).GetOr({})
  {
  }

  /** Items without an address are skipped, and one address in two cases is found once. */
  lemma RoutescanExtraction(items: seq<LogItem>)
    ensures forall i :: 0 <= i < |items| && Truthy(items[i].address) ==> Lower(items[i].address.value) in RoutescanContracts(items)
    ensures RoutescanContracts([LogItem(None), LogItem(Some(""))] + items) == RoutescanContracts(items)
    ensures RoutescanContracts([LogItem(Some("0xAB")), LogItem(Some("0xab"))]) == {"0xab"}
  {
    var pre: seq<LogItem> := [LogItem(None), LogItem(Some(""))];
    var all := pre + items;
    forall a | a in RoutescanContracts(all) ensures a in RoutescanContracts(items) {
      var i :| 0 <= i < |all| && Truthy(all[i].address) && Lower(all[i].address.value) == a;
      assert all[i] == items[i - 2];
    }
    forall a | a in RoutescanContracts(items) ensures a in RoutescanContracts(all) {
      var i :| 0 <= i < |items| && Truthy(items[i].address) && Lower(items[i].address.value) == a;
      assert all[i + 2] == items[i];
    }
    var two := [LogItem(Some("0xAB")), LogItem(Some("0xab"))];
    assert Lower("0xAB") == "0xab" && Lower("0xab") == "0xab";
    assert Lower(two[0].address.value) in RoutescanContracts(two);
  }

  /** A node that is down, has no block number or fails the log query makes the discovery fall back to nothing. */
  lemma RpcFailureGivesNothing(apiKey: Option<string>, chainId: Option<int>, node: RpcNode, getLogs: int -> Option<seq<string>>)
    requires !node.connected || node.blockNumber.None? || getLogs(FromBlock(node.blockNumber.value)).None?
    ensures Discovered(apiKey, chainId, None, node, getLogs) == {}
  {
  }

  // ---------------------------------------------------------------------------
  // sorted(contracts)
  // ---------------------------------------------------------------------------

  /** Ascending in Python's string order, hence without duplicates. */
  predicate StrictlySorted(r: seq<string>) {
    forall i, j :: 0 <= i < j < |r| ==> Less(r[i], r[j])
  }

  /** A strictly sorted list holds each string at most once. */
  lemma SortedDistinct(r: seq<string>)
    requires StrictlySorted(r)
    ensures forall i, j :: 0 <= i < |r| && 0 <= j < |r| && r[i] == r[j] ==> i == j
  {
    forall i, j | 0 <= i < |r| && 0 <= j < |r| && i != j ensures r[i] != r[j] {
      if i < j {
        LessIrreflexive(r[i]);
      } else {
        LessIrreflexive(r[j]);
      }
    }
  }

  /** `x` put in its place in a sorted list, unless already there. */
  function Insert(r: seq<string>, x: string): seq<string> {
    if |r| == 0 then [x]
    else if r[0] == x then r
    else if Less(x, r[0]) then [x] + r
    else [r[0]] + Insert(r[1..], x)
  }

  lemma {:induction false} InsertSorted(r: seq<string>, x: string)
    requires StrictlySorted(r)
    ensures StrictlySorted(Insert(r, x))
    ensures forall a :: a in Insert(r, x) <==> a in r || a == x
  {
    if |r| == 0 {
    } else if r[0] == x {
    } else if Less(x, r[0]) {
      var s := [x] + r;
      forall i, j | 0 <= i < j < |s| ensures Less(s[i], s[j]) {
        if i == 0 && j > 1 {
          LessTransitive(x, r[0], r[j - 1]);
        }
      }
    } else {
      LessTotal(x, r[0]);
      InsertSorted(r[1..], x);
      var tail := Insert(r[1..], x);
      forall a | a in tail ensures Less(r[0], a) {
        if a != x {
          var j :| 0 <= j < |r[1..]| && r[1..][j] == a;
          assert r[j + 1] == a;
        }
      }
      var s := [r[0]] + tail;
      forall i, j | 0 <= i < j < |s| ensures Less(s[i], s[j]) {
        if i == 0 {
          assert s[j] == tail[j - 1] && tail[j - 1] in tail;
        } else {
          assert s[i] == tail[i - 1] && s[j] == tail[j - 1];
        }
      }
      assert forall a :: a in r <==> a == r[0] || a in r[1..];
    }
  }

  /** `sorted(contracts)`. */
  method SortedList(contracts: set<string>) returns (r: seq<string>)
    ensures StrictlySorted(r)
    ensures forall a :: a in r <==> a in contracts
  {
    r := [];
    var pending := contracts;
    while pending != {}
      invariant pending <= contracts
      invariant StrictlySorted(r)
      invariant forall a :: a in r <==> a in contracts - pending
      decreases |pending|
    {
      var x :| x in pending;
      InsertSorted(r, x);
      r := Insert(r, x);
      pending := pending - {x};
    }
  }
}
