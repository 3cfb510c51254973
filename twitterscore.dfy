/** scripts/twitterscore.py: the report script without the RugCheck and
    suspicion gates. It standardizes both listings to seven flat fields,
    keeps the Solana tokens, scores every one of them, attaches the
    TwitterScore summary of its handle and ranks the rows. */
module TwitterScore {
  import opened Json
  import opened Scoring
  import opened Pipeline
  import opened Sorting
  import DataFormater
  import RugChecker

  /** The seven fields of a standardized record. */
  const Fields: set<string> :=
    {"name", "symbol", "chain", "volume", "price_change", "liquidity", "twitter"}

  /** `standardize_token(token, source)`: the rugchecker standardizer
      without the contract, with the same evaluation order and
      exceptions. */
  function StandardizeToken(token: Record, source: Value): (r: Result<Record>)
    ensures source != Str("pump.fun") && source != Str("dexscreener") ==> r == Ok(map[])
    ensures source == Str("pump.fun") || source == Str("dexscreener") ==>
      (r.Ok? <==> Get(token, "chain", Str("")).Str? && DataFormater.FlatInput(token))
    ensures r.Err? && !Get(token, "chain", Str("")).Str? ==> r.error == AttributeError
  {
    if source == Str("pump.fun") || source == Str("dexscreener") then
      var pump := source == Str("pump.fun");
      var chain :- LowerValue(Get(token, "chain", Str("")));
      var volume :- ToFloat(Get(token, "volume", Num(0.0)));
      var priceChange :- ToFloat(Get(token, "priceChange", Num(0.0)));
      var liquidity :- ToFloat(Get(token, "liquidity", Num(0.0)));
      Ok(map[
        "name" := Get(token, if pump then "name" else "pairName", Str("Unknown")),
        "symbol" := Get(token, if pump then "symbol" else "baseTokenSymbol", Str("N/A")),
        "chain" := chain,
        "volume" := Num(volume),
        "price_change" := Num(priceChange),
        "liquidity" := Num(liquidity),
        "twitter" := Get(token, "twitter", Null)])
    else
      Ok(map[])
  }

  /** A standardized record of a known provider has exactly the seven
      fields, its features are the provider's numbers, and its chain is the
      provider's chain lower-cased. */
  lemma StandardizedFlat(token: Record, source: Value)
    requires source == Str("pump.fun") || source == Str("dexscreener")
    requires StandardizeToken(token, source).Ok?
    ensures var t := StandardizeToken(token, source).value;
      && t.Keys == Fields
      && t["chain"] == Str(Lower(Get(token, "chain", Str("")).s))
      && FlatNumeric(t)
  {
  }

  /** The two scripts standardize alike: the same tokens raise the same
      exception, and a known provider's record here is the rugchecker
      record without its contract. */
  lemma SameAsRugCheckerWithoutContract(token: Record, source: Value)
    ensures StandardizeToken(token, source).Err? <==> RugChecker.StandardizeToken(token, source).Err?
    ensures StandardizeToken(token, source).Err? ==>
      StandardizeToken(token, source).error == RugChecker.StandardizeToken(token, source).error
    ensures StandardizeToken(token, source).Ok? ==>
      var seven := StandardizeToken(token, source).value;
      var eight := RugChecker.StandardizeToken(token, source).value;
      && seven.Keys <= eight.Keys
      && (source == Str("pump.fun") || source == Str("dexscreener") ==> seven.Keys == eight.Keys - {"contract"})
      && (forall k :: k in seven ==> seven[k] == eight[k])
  {
    if StandardizeToken(token, source).Ok? && (source == Str("pump.fun") || source == Str("dexscreener")) {
      StandardizedFlat(token, source);
      RugChecker.StandardizedKeys(token, source);
      SharedFields(token, source);
    }
  }

  lemma SharedFields(token: Record, source: Value)
    requires source == Str("pump.fun") || source == Str("dexscreener")
    requires StandardizeToken(token, source).Ok?
    ensures RugChecker.StandardizeToken(token, source).Ok?
    ensures var seven := StandardizeToken(token, source).value;
      var eight := RugChecker.StandardizeToken(token, source).value;
      forall k :: k in seven ==> seven[k] == eight[k]
  {
    var seven := StandardizeToken(token, source).value;
    var eight := RugChecker.StandardizeToken(token, source).value;
    StandardizedFlat(token, source);
    RugChecker.StandardizedValues(token, source);
    RugChecker.StandardizedIdentity(token, source);
    forall k | k in seven ensures seven[k] == eight[k] {
      assert k in Fields;
    }
  }

  /** Only records of a known provider can be on Solana, and those are
      flat. */
  lemma SolanaRecordsAreFlat(token: Record, source: Value)
    requires StandardizeToken(token, source).Ok?
    requires OnSolana(StandardizeToken(token, source).value)
    ensures source == Str("pump.fun") || source == Str("dexscreener")
    ensures FlatNumeric(StandardizeToken(token, source).value)
  {
    if source == Str("pump.fun") || source == Str("dexscreener") {
      StandardizedFlat(token, source);
    }
  }

  // ---------------------------------------------------------------------
  // The analysis loop

  /** The keys of a result row. */
  const ResultKeys: set<string> := {"name", "symbol", "upside_score", "twitter_handle", "twitter_info"}

  /** The row `results.append({...})` of a scored token. */
  function Row(token: Record, score: real, fetchTwitter: RugChecker.TwitterFetcher): (r: Record)
    ensures r.Keys == ResultKeys
    ensures r["upside_score"] == Num(score)
    ensures r["twitter_handle"] == Get(token, "twitter", Null)
    ensures !Truthy(Get(token, "twitter", Null)) ==> r["twitter_info"] == Obj(map[])
  {
    var handle := Get(token, "twitter", Null);
    map[
      "name" := Get(token, "name", Null),
      "symbol" := Get(token, "symbol", Null),
      "upside_score" := Num(score),
      "twitter_handle" := handle,
      "twitter_info" := RugChecker.TwitterInfo(handle, fetchTwitter)]
  }

  /** One pass of the analysis loop: score the token and build its row. */
  function Analyze(token: Record, fetchTwitter: RugChecker.TwitterFetcher): (r: Result<Record>)
    ensures r.Ok? <==> FlatNumeric(token)
    ensures r.Ok? ==> r.value.Keys == ResultKeys
    ensures r.Ok? ==> (r.value["upside_score"] ==
      Num(Weighted(NumberOr0(token, "volume"), NumberOr0(token, "price_change"), NumberOr0(token, "liquidity"))))
    ensures r.Err? ==> r.error == TypeError
  {
    var score :- AnalyzeFlatToken(token);
    Ok(Row(token, score, fetchTwitter))
  }

  function AnalyzeStep(fetchTwitter: RugChecker.TwitterFetcher): Mapping
  {
    t => Analyze(t, fetchTwitter)
  }

  // ---------------------------------------------------------------------
  // main()

  /** The standardized concatenation of the two listings. */
  function Standardized(pumpTokens: seq<Record>, dexTokens: seq<Record>): Result<seq<Record>>
  {
    MapAll(pumpTokens + dexTokens, StandardizeStep(StandardizeToken))
  }

  /** The rows of the analysis loop, in token order. */
  function Analyzed(pumpTokens: seq<Record>, dexTokens: seq<Record>,
                    fetchTwitter: RugChecker.TwitterFetcher): Result<seq<Record>>
  {
    var standardized :- Standardized(pumpTokens, dexTokens);
    MapAll(SolanaOnly(standardized), AnalyzeStep(fetchTwitter))
  }

  /** What `main()` displays: one row per Solana token, highest upside score
      first, or the exception that ends the script. */
  function Report(pumpTokens: seq<Record>, dexTokens: seq<Record>,
                  fetchTwitter: RugChecker.TwitterFetcher): Result<seq<Record>>
  {
    var rows :- Analyzed(pumpTokens, dexTokens, fetchTwitter);
    Ok(SortDesc(rows, UpsideScore))
  }

  /** `main()` up to the display: the standardization loop, the Solana
      filter, the analysis loop and the stable descending sort. */
  method MainWorkflow(pumpTokens: seq<Record>, dexTokens: seq<Record>,
                      fetchTwitter: RugChecker.TwitterFetcher) returns (r: Result<seq<Record>>)
    ensures r == Report(pumpTokens, dexTokens, fetchTwitter)
  {
    var allTokensRaw := pumpTokens + dexTokens;
    var standardized := MapEach(allTokensRaw, StandardizeStep(StandardizeToken));
    if standardized.Err? {
      return Err(standardized.error);
    }
    var solanaTokens := SolanaOnly(standardized.value);
    var results := MapEach(solanaTokens, AnalyzeStep(fetchTwitter));
    if results.Err? {
      return Err(results.error);
    }
    var ranked := StableSortDescending(results.value, UpsideScore);
    r := Ok(ranked);
  }

  /** Every Solana token of the standardized list is flat. */
  lemma SolanaTokensAreFlat(pumpTokens: seq<Record>, dexTokens: seq<Record>)
    requires Standardized(pumpTokens, dexTokens).Ok?
    ensures forall i :: 0 <= i < |SolanaOnly(Standardized(pumpTokens, dexTokens).value)| ==>
      FlatNumeric(SolanaOnly(Standardized(pumpTokens, dexTokens).value)[i])
  {
    var raw := pumpTokens + dexTokens;
    var std := Standardized(pumpTokens, dexTokens).value;
    var solana := SolanaOnly(std);
    forall i | 0 <= i < |solana| ensures FlatNumeric(solana[i]) {
      var t := solana[i];
      assert multiset(solana)[t] > 0;
      assert OnSolana(t) && t in std;
      var j :| 0 <= j < |std| && std[j] == t;
      assert StandardizeToken(raw[j], Source(raw[j])) == Ok(t);
      SolanaRecordsAreFlat(raw[j], Source(raw[j]));
    }
  }

  /** Once the listings standardize, the script always produces its report:
      the scorer never raises on a Solana record. */
  lemma ReportAfterStandardization(pumpTokens: seq<Record>, dexTokens: seq<Record>,
                                   fetchTwitter: RugChecker.TwitterFetcher)
    requires Standardized(pumpTokens, dexTokens).Ok?
    ensures Report(pumpTokens, dexTokens, fetchTwitter).Ok?
  {
    var solana := SolanaOnly(Standardized(pumpTokens, dexTokens).value);
    SolanaTokensAreFlat(pumpTokens, dexTokens);
    assert forall i :: 0 <= i < |solana| ==> AnalyzeStep(fetchTwitter)(solana[i]).Ok?;
  }

  /** Every Solana token gets exactly one row: the i-th row of the loop
      belongs to the i-th Solana token and carries its weighted score. */
  lemma AnalyzedOnePerSolanaToken(pumpTokens: seq<Record>, dexTokens: seq<Record>,
                                  fetchTwitter: RugChecker.TwitterFetcher)
    requires Analyzed(pumpTokens, dexTokens, fetchTwitter).Ok?
    ensures |Analyzed(pumpTokens, dexTokens, fetchTwitter).value| ==
      |SolanaOnly(Standardized(pumpTokens, dexTokens).value)|
    ensures forall i :: 0 <= i < |Analyzed(pumpTokens, dexTokens, fetchTwitter).value| ==>
      Analyze(SolanaOnly(Standardized(pumpTokens, dexTokens).value)[i], fetchTwitter) ==
        Ok(Analyzed(pumpTokens, dexTokens, fetchTwitter).value[i])
  {
    var solana := SolanaOnly(Standardized(pumpTokens, dexTokens).value);
    var mapped := MapAll(solana, AnalyzeStep(fetchTwitter));
    assert Analyzed(pumpTokens, dexTokens, fetchTwitter) == mapped;
    assert forall i :: 0 <= i < |solana| ==> AnalyzeStep(fetchTwitter)(solana[i]) == Ok(mapped.value[i]);
  }

  /** The report is the loop's rows ranked by upside score, stable among
      equal scores, with one row per Solana token. */
  lemma ReportRanked(pumpTokens: seq<Record>, dexTokens: seq<Record>,
                     fetchTwitter: RugChecker.TwitterFetcher)
    requires Report(pumpTokens, dexTokens, fetchTwitter).Ok?
    ensures var report := Report(pumpTokens, dexTokens, fetchTwitter).value;
      var rows := Analyzed(pumpTokens, dexTokens, fetchTwitter).value;
      && SortedDesc(report, UpsideScore)
      && multiset(report) == multiset(rows)
      && (forall k: real :: WithKey(report, UpsideScore, k) == WithKey(rows, UpsideScore, k))
      && |report| == |SolanaOnly(Standardized(pumpTokens, dexTokens).value)|
  {
    var rows := Analyzed(pumpTokens, dexTokens, fetchTwitter).value;
    SortDescSorted(rows, UpsideScore);
    SortDescPermutation(rows, UpsideScore);
    forall k: real ensures WithKey(SortDesc(rows, UpsideScore), UpsideScore, k) == WithKey(rows, UpsideScore, k) {
      SortDescStable(rows, UpsideScore, k);
    }
  }

  /** The analysis loop's rows come in fetch order: the rows of two
      consecutive runs of fetched tokens are the rows of the first run
      followed by the rows of the second. */
  lemma AnalyzedAppend(xs: seq<Record>, ys: seq<Record>, fetchTwitter: RugChecker.TwitterFetcher)
    requires Analyzed(xs + ys, [], fetchTwitter).Ok?
    ensures Analyzed(xs, [], fetchTwitter).Ok? && Analyzed(ys, [], fetchTwitter).Ok?
    ensures Analyzed(xs + ys, [], fetchTwitter).value ==
      Analyzed(xs, [], fetchTwitter).value + Analyzed(ys, [], fetchTwitter).value
  {
    var f := StandardizeStep(StandardizeToken);
    assert xs + ys + [] == xs + ys && xs + [] == xs && ys + [] == ys;
    MapAllAppend(xs, ys, f);
    var sx := MapAll(xs, f).value;
    var sy := MapAll(ys, f).value;
    SolanaOnlyAppend(sx, sy);
    MapAllAppend(SolanaOnly(sx), SolanaOnly(sy), AnalyzeStep(fetchTwitter));
  }

  /** Among rows with equal upside scores, the rows of pump.fun tokens come
      before the rows of DexScreener tokens, each in fetch order. */
  lemma PumpFunRowsFirst(pumpTokens: seq<Record>, dexTokens: seq<Record>,
                         fetchTwitter: RugChecker.TwitterFetcher)
    requires Report(pumpTokens, dexTokens, fetchTwitter).Ok?
    ensures Analyzed(pumpTokens, [], fetchTwitter).Ok?
    ensures Analyzed([], dexTokens, fetchTwitter).Ok?
    ensures var pumpRows := Analyzed(pumpTokens, [], fetchTwitter).value;
      var dexRows := Analyzed([], dexTokens, fetchTwitter).value;
      && Analyzed(pumpTokens, dexTokens, fetchTwitter).value == pumpRows + dexRows
      && forall k: real :: WithKey(Report(pumpTokens, dexTokens, fetchTwitter).value, UpsideScore, k)
           == WithKey(pumpRows, UpsideScore, k) + WithKey(dexRows, UpsideScore, k)
  {
    assert pumpTokens + dexTokens + [] == pumpTokens + dexTokens && [] + dexTokens == dexTokens + [];
    assert Analyzed(pumpTokens, dexTokens, fetchTwitter) == Analyzed(pumpTokens + dexTokens, [], fetchTwitter);
    assert Analyzed([], dexTokens, fetchTwitter) == Analyzed(dexTokens, [], fetchTwitter);
    AnalyzedAppend(pumpTokens, dexTokens, fetchTwitter);
    var pumpRows := Analyzed(pumpTokens, [], fetchTwitter).value;
    var dexRows := Analyzed([], dexTokens, fetchTwitter).value;
    var rows := Analyzed(pumpTokens, dexTokens, fetchTwitter).value;
    forall k: real
      ensures WithKey(Report(pumpTokens, dexTokens, fetchTwitter).value, UpsideScore, k)
           == WithKey(pumpRows, UpsideScore, k) + WithKey(dexRows, UpsideScore, k)
    {
      SortDescStable(rows, UpsideScore, k);
      WithKeyAppend(pumpRows, dexRows, UpsideScore, k);
    }
  }

  /** A token whose handle is falsy never reaches the Twitter API: its row
      carries an empty summary whatever the fetcher. */
  lemma NoHandleSkipsTwitter(token: Record, twitterA: RugChecker.TwitterFetcher, twitterB: RugChecker.TwitterFetcher)
    requires !Truthy(Get(token, "twitter", Null))
    ensures Analyze(token, twitterA) == Analyze(token, twitterB)
    ensures Analyze(token, twitterA).Ok? ==> Analyze(token, twitterA).value["twitter_info"] == Obj(map[])
  {
  }
}
