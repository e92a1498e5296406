/**
 * The scam filter: an ordered chain of checks on a holding's symbol that
 * decides whether the holding is suppressed, and why.
 */
module ScamFilter {
  import opened Wrappers
  import opened Text
  import opened Holdings

  /** Fragments whose presence in a lower-cased symbol marks a lure token. */
  const ScamKeywords: set<string> :=
    {"claim", "airdrop", "reward", "visit", "verify", "http", ".com", ".net", ".io"}

  /** Look-alike ETH symbols used for dust scams. */
  const KnownScamSymbols: set<string> := {"xeth", "ethg", "ethe", "etth", "ethx"}

  /** `(suppressed, reason)`. */
  datatype Verdict = Verdict(suppressed: bool, reason: string)

  /**
   * An order in which Python may iterate over the keyword set: the set's
   * iteration order is not fixed, so the model takes it as a parameter.
   */
  predicate IsIterationOrder(order: seq<string>) {
    multiset(order) == multiset(ScamKeywords)
  }

  /** The symbol text, with a missing symbol read as the empty string. */
  function SymbolText(h: Holding): string {
    h.symbol.GetOr("")
  }

  /** Some keyword of the set occurs in `sym`. */
  predicate HasKeyword(sym: string) {
    exists k :: k in ScamKeywords && Contains(sym, k)
  }

  /** The first keyword, in iteration order, that occurs in `sym`. */
  function FirstKeyword(order: seq<string>, sym: string): (r: Option<string>)
    ensures r.Some? ==> r.value in order && Contains(sym, r.value)
    ensures r.None? ==> forall k :: k in order ==> !Contains(sym, k)
    ensures r.Some? ==> exists i :: 0 <= i < |order| && order[i] == r.value &&
                                    forall j :: 0 <= j < i ==> !Contains(sym, order[j])
  {
    if |order| == 0 then None
    else if Contains(sym, order[0]) then Some(order[0])
    else
      var r := FirstKeyword(order[1..], sym);
      if r.Some? then
        var i :| 0 <= i < |order[1..]| && order[1..][i] == r.value &&
                 forall j :: 0 <= j < i ==> !Contains(sym, order[1..][j]);
        assert order[i + 1] == r.value;
        assert forall j :: 1 <= j < i + 1 ==> order[j] == order[1..][j - 1];
        r
      else r
  }

  /**
   * `is_scam_token`: missing symbol, then known scam symbol, then keyword,
   * then non-alphanumeric; a holding passing every check is kept, whether it
   * is a token or a native coin.
   */
  function IsScamToken(h: Holding, order: seq<string>): (r: Verdict)
    requires IsIterationOrder(order)
    ensures r.suppressed <==> r.reason != ""
    ensures SymbolText(h) == "" ==> r == Verdict(true, "missing_symbol")
    ensures SymbolText(h) != "" && Lower(SymbolText(h)) in KnownScamSymbols ==>
              r == Verdict(true, "known_scam_symbol")
    ensures SymbolText(h) != "" && Lower(SymbolText(h)) !in KnownScamSymbols && HasKeyword(Lower(SymbolText(h))) ==>
              r.suppressed && exists k :: k in ScamKeywords && Contains(Lower(SymbolText(h)), k) && r.reason == "keyword:" + k
    ensures SymbolText(h) != "" && Lower(SymbolText(h)) !in KnownScamSymbols && !HasKeyword(Lower(SymbolText(h))) ==>
              r == (if IsAlnum(SymbolText(h)) then Verdict(false, "") else Verdict(true, "non_alphanumeric"))
  {
    var symbol := SymbolText(h);
    if symbol == "" then Verdict(true, "missing_symbol")
    else
      var sym := Lower(symbol);
      if sym in KnownScamSymbols then Verdict(true, "known_scam_symbol")
      else
        var found := FirstKeyword(order, sym);
        assert forall k :: k in ScamKeywords <==> k in multiset(order);
        if found.Some? then Verdict(true, "keyword:" + found.value)
        else if !IsAlnum(symbol) then Verdict(true, "non_alphanumeric")
        else Verdict(false, "")
  }

  /** When at most one keyword occurs, the verdict does not depend on the iteration order. */
  lemma OrderMattersOnlyForSeveralKeywords(h: Holding, order1: seq<string>, order2: seq<string>)
    requires IsIterationOrder(order1) && IsIterationOrder(order2)
    requires forall k1, k2 ::
               (k1 in ScamKeywords && k2 in ScamKeywords &&
                Contains(Lower(SymbolText(h)), k1) && Contains(Lower(SymbolText(h)), k2)) ==> k1 == k2
    ensures IsScamToken(h, order1) == IsScamToken(h, order2)
  {
    var sym := Lower(SymbolText(h));
    var f1, f2 := FirstKeyword(order1, sym), FirstKeyword(order2, sym);
    if f1.Some? {
      assert f1.value in multiset(order1);
      assert f1.value in multiset(order2);
    }
    if f2.Some? {
      assert f2.value in multiset(order2);
      assert f2.value in multiset(order1);
    }
  }

  /** The token/native flag plays no part in the verdict. */
  lemma NativeGetsNoSpecialTreatment(h: Holding, order: seq<string>)
    requires IsIterationOrder(order)
    ensures IsScamToken(h, order) == IsScamToken(h.(isErc20 := !h.isErc20), order)
  {
  }

  /** The only keywords that occur in "claimairdrop" are "claim" and "airdrop". */
  lemma ClaimAirdropKeywords()
    ensures forall k :: k in ScamKeywords && Contains("claimairdrop", k) ==> k == "claim" || k == "airdrop"
  {
    var sym := "claimairdrop";
    CharAbsent(sym, "reward", 2);
    CharAbsent(sym, "visit", 0);
    CharAbsent(sym, "verify", 0);
    CharAbsent(sym, "http", 0);
    CharAbsent(sym, ".com", 0);
    CharAbsent(sym, ".net", 0);
    CharAbsent(sym, ".io", 0);
  }

  /** A holding with symbol "ClaimAirdrop" is suppressed for a keyword it contains. */
  lemma ClaimAirdropIsSuppressed(h: Holding, order: seq<string>) returns (k: string)
    requires IsIterationOrder(order)
    requires h.symbol == Some("ClaimAirdrop")
    ensures k == "claim" || k == "airdrop"
    ensures IsScamToken(h, order) == Verdict(true, "keyword:" + k)
  {
    assert Lower("ClaimAirdrop") == "claimairdrop";
    ClaimAirdropKeywords();
    ContainsAt("claimairdrop", "claim", 0);
    var r := IsScamToken(h, order);
    k :| k in ScamKeywords && Contains("claimairdrop", k) && r.reason == "keyword:" + k;
  }

  /** The only keywords that occur in "visit.com" are "visit" and ".com". */
  lemma VisitDotComKeywords()
    ensures forall k :: k in ScamKeywords && Contains("visit.com", k) ==> k == "visit" || k == ".com"
  {
    var sym := "visit.com";
    CharAbsent(sym, "claim", 1);
    CharAbsent(sym, "airdrop", 0);
    CharAbsent(sym, "reward", 0);
    CharAbsent(sym, "verify", 1);
    CharAbsent(sym, "http", 0);
    CharAbsent(sym, ".net", 1);
    FirstTwoAbsent(sym, ".io");
  }

  /** "visit.com" is reported for a keyword, never as merely non-alphanumeric. */
  lemma VisitDotComIsKeyword(h: Holding, order: seq<string>) returns (k: string)
    requires IsIterationOrder(order)
    requires h.symbol == Some("visit.com")
    ensures k == "visit" || k == ".com"
    ensures IsScamToken(h, order) == Verdict(true, "keyword:" + k)
  {
    assert Lower("visit.com") == "visit.com";
    VisitDotComKeywords();
    ContainsAt("visit.com", "visit", 0);
    var r := IsScamToken(h, order);
    k :| k in ScamKeywords && Contains("visit.com", k) && r.reason == "keyword:" + k;
  }

  /** A plain "ETH" passes every check, as a token or as a native coin. */
  lemma EthPasses(h: Holding, order: seq<string>)
    requires IsIterationOrder(order)
    requires h.symbol == Some("ETH")
    ensures IsScamToken(h, order) == Verdict(false, "")
  {
    var sym := "eth";
    assert Lower("ETH") == sym;
    NotContainsLonger(sym, "claim");
    NotContainsLonger(sym, "airdrop");
    NotContainsLonger(sym, "reward");
    NotContainsLonger(sym, "visit");
    NotContainsLonger(sym, "verify");
    NotContainsLonger(sym, "http");
    NotContainsLonger(sym, ".com");
    NotContainsLonger(sym, ".net");
    CharAbsent(sym, ".io", 0);
  }
}
