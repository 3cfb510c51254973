/** scripts/rugchecker.py: the report script that standardizes the pump.fun
    and DexScreener listings to eight flat fields, keeps the Solana tokens,
    drops suspicious ones and those whose RugCheck score is missing or
    below the threshold, scores the rest and ranks them. */
module RugChecker {
  import opened Json
  import opened Scoring
  import opened Pipeline
  import opened Sorting
  import Suspicion
  import DataFormater

  /** `RUGCHECK_THRESHOLD`: the lowest contract score a token may have. */
  const RugcheckThreshold: real := 50.0

  /** `fetch_rugcheck_score(contract)`: the `contract_score` of the API's
      answer, None when it is absent or the request fails. */
  type RugFetcher = Value -> Value

  /** `fetch_twitter_info(handle)`: the handle's TwitterScore summary, `{}`
      when the request fails. */
  type TwitterFetcher = Value -> Value

  /** The eight fields of a standardized record. */
  const Fields: set<string> :=
    {"name", "symbol", "chain", "volume", "price_change", "liquidity", "twitter", "contract"}

  /** `standardize_token(token, source)`: both providers give flat fields
      here; only the keys of the name, symbol and contract differ. The chain
      is lowered first (AttributeError for a non-string), then `float()` is
      applied to volume, priceChange and liquidity in that order. */
  function StandardizeToken(token: Record, source: Value): (r: Result<Record>)
    ensures source != Str("pump.fun") && source != Str("dexscreener") ==> r == Ok(map[])
    ensures source == Str("pump.fun") || source == Str("dexscreener") ==>
      (r.Ok? <==> Get(token, "chain", Str("")).Str? && DataFormater.FlatInput(token))
    ensures r.Err? && !Get(token, "chain", Str("")).Str? ==> r.error == AttributeError
  {
    if source == Str("pump.fun") || source == Str("dexscreener") then
      var pump := source == Str("pump.fun");
      var chain :- LowerValue(Get(token, "chain", Str("")));
      var volume :- ToFloat(Get(token, "volume", Num(0.0)));
      var priceChange :- ToFloat(Get(token, "priceChange", Num(0.0)));
      var liquidity :- ToFloat(Get(token, "liquidity", Num(0.0)));
      Ok(map[
        "name" := Get(token, if pump then "name" else "pairName", Str("Unknown")),
        "symbol" := Get(token, if pump then "symbol" else "baseTokenSymbol", Str("N/A")),
        "chain" := chain,
        "volume" := Num(volume),
        "price_change" := Num(priceChange),
        "liquidity" := Num(liquidity),
        "twitter" := Get(token, "twitter", Null),
        "contract" := Get(token, if pump then "contract_address" else "contractAddress", Null)])
    else
      Ok(map[])
  }

  /** A standardized record of a known provider has exactly the eight
      fields. */
  lemma StandardizedKeys(token: Record, source: Value)
    requires source == Str("pump.fun") || source == Str("dexscreener")
    requires StandardizeToken(token, source).Ok?
    ensures StandardizeToken(token, source).value.Keys == Fields
  {
  }

  /** The standardized chain is the provider's chain lower-cased, and the
      three features are the provider's numbers. */
  lemma StandardizedValues(token: Record, source: Value)
    requires source == Str("pump.fun") || source == Str("dexscreener")
    requires StandardizeToken(token, source).Ok?
    ensures var t := StandardizeToken(token, source).value;
      && t["chain"] == Str(Lower(Get(token, "chain", Str("")).s))
      && t["volume"] == Num(AsNumber(Get(token, "volume", Num(0.0))).value)
      && t["price_change"] == Num(AsNumber(Get(token, "priceChange", Num(0.0))).value)
      && t["liquidity"] == Num(AsNumber(Get(token, "liquidity", Num(0.0))).value)
  {
  }

  /** The name, symbol, handle and contract come from the provider's own
      keys, with the defaults of the source. */
  lemma StandardizedIdentity(token: Record, source: Value)
    requires source == Str("pump.fun") || source == Str("dexscreener")
    requires StandardizeToken(token, source).Ok?
    ensures var t := StandardizeToken(token, source).value;
      var pump := source == Str("pump.fun");
      && t["name"] == Get(token, if pump then "name" else "pairName", Str("Unknown"))
      && t["symbol"] == Get(token, if pump then "symbol" else "baseTokenSymbol", Str("N/A"))
      && t["twitter"] == Get(token, "twitter", Null)
      && t["contract"] == Get(token, if pump then "contract_address" else "contractAddress", Null)
  {
  }

  /** Standardizing a standardized record's chain changes nothing: the
      stored chain is already lower case. */
  lemma StandardizedChainLower(token: Record, source: Value)
    requires source == Str("pump.fun") || source == Str("dexscreener")
    requires StandardizeToken(token, source).Ok?
    ensures var c := StandardizeToken(token, source).value["chain"];
      c.Str? && Lower(c.s) == c.s
  {
    StandardizedValues(token, source);
    LowerIdempotent(Get(token, "chain", Str("")).s);
  }

  /** Only records of a known provider can be on Solana: the `{}` of an
      unknown one has no chain. Those records are flat numbers, so neither
      the suspicion filter nor the scorer can raise on them. */
  lemma SolanaRecordsAreFlat(token: Record, source: Value)
    requires StandardizeToken(token, source).Ok?
    requires OnSolana(StandardizeToken(token, source).value)
    ensures source == Str("pump.fun") || source == Str("dexscreener")
    ensures FlatNumeric(StandardizeToken(token, source).value)
  {
    if source == Str("pump.fun") || source == Str("dexscreener") {
      StandardizedKeys(token, source);
      StandardizedValues(token, source);
    }
  }

  // ---------------------------------------------------------------------
  // The per-token step of the report loop

  /** The RugCheck gate: a truthy contract is looked up; a None score or one
      below the threshold skips the token (None here), a score that cannot
      be compared with 50 raises TypeError, an accepted score is stored. A
      token without a contract gets "N/A". */
  function RugGate(contract: Value, rugScore: RugFetcher): (r: Result<Option<Value>>)
    ensures !Truthy(contract) ==> r == Ok(Some(Str("N/A")))
    ensures Truthy(contract) ==>
      (r.Ok? <==> rugScore(contract) == Null || AsNumber(rugScore(contract)).Some?)
    ensures Truthy(contract) && r.Ok? && r.value.Some? ==>
      && r.value.value == rugScore(contract)
      && AsNumber(rugScore(contract)).Some? && AsNumber(rugScore(contract)).value >= RugcheckThreshold
    ensures Truthy(contract) && r.Ok? && r.value.None? ==>
      rugScore(contract) == Null || AsNumber(rugScore(contract)).value < RugcheckThreshold
    ensures r.Err? ==> r.error == TypeError
  {
    if Truthy(contract) then
      var score := rugScore(contract);
      if score == Null then Ok(None)
      else match AsNumber(score)
        case None => Err(TypeError)
        case Some(x) => if x < RugcheckThreshold then Ok(None) else Ok(Some(score))
    else
      Ok(Some(Str("N/A")))
  }

  /** The keys of a result row. */
  const ResultKeys: set<string> :=
    {"name", "symbol", "upside_score", "twitter_handle", "twitter_info", "rug_score"}

  /** The Twitter summary of a row: fetched only for a truthy handle. */
  function TwitterInfo(handle: Value, fetchTwitter: TwitterFetcher): Value
  {
    if Truthy(handle) then fetchTwitter(handle) else Obj(map[])
  }

  /** The row `results.append({...})` of a token that carries its
      `rug_score`. */
  function Row(token: Record, upside: real, fetchTwitter: TwitterFetcher): (r: Record)
    ensures r.Keys == ResultKeys
    ensures r["upside_score"] == Num(upside)
    ensures r["rug_score"] == Get(token, "rug_score", Null)
  {
    var handle := Get(token, "twitter", Null);
    map[
      "name" := Get(token, "name", Null),
      "symbol" := Get(token, "symbol", Null),
      "upside_score" := Num(upside),
      "twitter_handle" := handle,
      "twitter_info" := TwitterInfo(handle, fetchTwitter),
      "rug_score" := Get(token, "rug_score", Null)]
  }

  /** One pass of the report loop: skip a suspicious token, apply the
      RugCheck gate, store the rug score in the token, score it and build
      its row. */
  function Screen(token: Record, rugScore: RugFetcher, fetchTwitter: TwitterFetcher): (r: Result<Option<Record>>)
    ensures r.Ok? && r.value.Some? ==>
      && Suspicion.IsTokenSuspicious(token) == Ok(false)
      && RugGate(Get(token, "contract", Null), rugScore).Ok?
      && RugGate(Get(token, "contract", Null), rugScore).value.Some?
      && r.value.value.Keys == ResultKeys
      && r.value.value["rug_score"] == RugGate(Get(token, "contract", Null), rugScore).value.value
    ensures r.Err? ==> r.error == TypeError
  {
    var suspicious :- Suspicion.IsTokenSuspicious(token);
    if suspicious then Ok(None)
    else
      var gate :- RugGate(Get(token, "contract", Null), rugScore);
      match gate
      case None => Ok(None)
      case Some(rug) =>
        var marked := token["rug_score" := rug];
        var upside :- AnalyzeFlatToken(marked);
        Ok(Some(Row(marked, upside, fetchTwitter)))
  }

  /** Storing the rug score does not touch the features, so the row's score
      is the weighted sum of the token's own numbers. */
  lemma ScreenScore(token: Record, rugScore: RugFetcher, fetchTwitter: TwitterFetcher)
    requires FlatNumeric(token)
    requires Screen(token, rugScore, fetchTwitter).Ok?
    requires Screen(token, rugScore, fetchTwitter).value.Some?
    ensures Screen(token, rugScore, fetchTwitter).value.value["upside_score"] ==
      Num(Weighted(NumberOr0(token, "volume"), NumberOr0(token, "price_change"), NumberOr0(token, "liquidity")))
  {
    var rug := RugGate(Get(token, "contract", Null), rugScore).value.value;
    var marked := token["rug_score" := rug];
    assert FlatFeatures(marked) == FlatFeatures(token);
  }

  /** On a flat record the step keeps the token exactly when it is not
      suspicious and passes the gate, and it raises only when the rug score
      cannot be compared. */
  lemma ScreenDecision(token: Record, rugScore: RugFetcher, fetchTwitter: TwitterFetcher)
    requires FlatNumeric(token)
    ensures var r := Screen(token, rugScore, fetchTwitter);
      var gate := RugGate(Get(token, "contract", Null), rugScore);
      && (r.Err? <==> !Suspicion.Suspicious(NumberOr0(token, "volume"), NumberOr0(token, "liquidity"),
                                             NumberOr0(token, "price_change")) && gate.Err?)
      && (r.Ok? && r.value.Some? <==>
            !Suspicion.Suspicious(NumberOr0(token, "volume"), NumberOr0(token, "liquidity"),
                                  NumberOr0(token, "price_change"))
            && gate.Ok? && gate.value.Some?)
  {
    var gate := RugGate(Get(token, "contract", Null), rugScore);
    if gate.Ok? && gate.value.Some? {
      var marked := token["rug_score" := gate.value.value];
      assert FlatFeatures(marked) == FlatFeatures(token);
    }
  }

  /** Without a contract the RugCheck API is never consulted: any two
      fetchers give the same outcome, and the row's rug score is "N/A". */
  lemma NoContractSkipsRugCheck(token: Record, rugA: RugFetcher, rugB: RugFetcher, fetchTwitter: TwitterFetcher)
    requires !Truthy(Get(token, "contract", Null))
    ensures Screen(token, rugA, fetchTwitter) == Screen(token, rugB, fetchTwitter)
    ensures var r := Screen(token, rugA, fetchTwitter);
      r.Ok? && r.value.Some? ==> r.value.value["rug_score"] == Str("N/A")
  {
  }

  /** A token with a falsy handle never reaches the Twitter API: its row
      carries an empty summary whatever the fetcher. */
  lemma NoHandleSkipsTwitter(token: Record, rugScore: RugFetcher, twitterA: TwitterFetcher, twitterB: TwitterFetcher)
    requires !Truthy(Get(token, "twitter", Null))
    ensures Screen(token, rugScore, twitterA) == Screen(token, rugScore, twitterB)
    ensures var r := Screen(token, rugScore, twitterA);
      r.Ok? && r.value.Some? ==> r.value.value["twitter_info"] == Obj(map[])
  {
    var gate := RugGate(Get(token, "contract", Null), rugScore);
    if gate.Ok? && gate.value.Some? {
      var marked := token["rug_score" := gate.value.value];
      assert Get(marked, "twitter", Null) == Get(token, "twitter", Null);
    }
  }

  function ScreenStep(rugScore: RugFetcher, fetchTwitter: TwitterFetcher): Step
  {
    t => Screen(t, rugScore, fetchTwitter)
  }

  // ---------------------------------------------------------------------
  // main()

  /** The standardized concatenation of the two listings. */
  function Standardized(pumpTokens: seq<Record>, dexTokens: seq<Record>): Result<seq<Record>>
  {
    MapAll(pumpTokens + dexTokens, StandardizeStep(StandardizeToken))
  }

  /** The rows of the report loop, in token order. */
  function Screened(pumpTokens: seq<Record>, dexTokens: seq<Record>,
                    rugScore: RugFetcher, fetchTwitter: TwitterFetcher): Result<seq<Record>>
  {
    var standardized :- Standardized(pumpTokens, dexTokens);
    CollectAll(SolanaOnly(standardized), ScreenStep(rugScore, fetchTwitter))
  }

  /** What `main()` displays: the rows of the kept Solana tokens, highest
      upside score first, or the exception that ends the script. */
  function Report(pumpTokens: seq<Record>, dexTokens: seq<Record>,
                  rugScore: RugFetcher, fetchTwitter: TwitterFetcher): Result<seq<Record>>
  {
    var rows :- Screened(pumpTokens, dexTokens, rugScore, fetchTwitter);
    Ok(SortDesc(rows, UpsideScore))
  }

  /** `main()` up to the display: the standardization loop, the Solana filter,
      the report loop and the stable descending sort. */
  method MainWorkflow(pumpTokens: seq<Record>, dexTokens: seq<Record>,
                      rugScore: RugFetcher, fetchTwitter: TwitterFetcher) returns (r: Result<seq<Record>>)
    ensures r == Report(pumpTokens, dexTokens, rugScore, fetchTwitter)
  {
    var allTokensRaw := pumpTokens + dexTokens;
    var standardized := MapEach(allTokensRaw, StandardizeStep(StandardizeToken));
    if standardized.Err? {
      return Err(standardized.error);
    }
    var solanaTokens := SolanaOnly(standardized.value);
    var results := CollectEach(solanaTokens, ScreenStep(rugScore, fetchTwitter));
    if results.Err? {
      return Err(results.error);
    }
    var ranked := StableSortDescending(results.value, UpsideScore);
    r := Ok(ranked);
  }

  /** Every Solana token of the standardized list came from a known
      provider and is flat. */
  lemma SolanaTokensAreFlat(pumpTokens: seq<Record>, dexTokens: seq<Record>)
    requires Standardized(pumpTokens, dexTokens).Ok?
    ensures forall t :: t in SolanaOnly(Standardized(pumpTokens, dexTokens).value) ==> FlatNumeric(t)
  {
    var raw := pumpTokens + dexTokens;
    var std := Standardized(pumpTokens, dexTokens).value;
    forall t | t in SolanaOnly(std) ensures FlatNumeric(t) {
      assert multiset(SolanaOnly(std))[t] > 0;
      assert OnSolana(t) && t in std;
      var i :| 0 <= i < |std| && std[i] == t;
      assert StandardizeToken(raw[i], Source(raw[i])) == Ok(t);
      SolanaRecordsAreFlat(raw[i], Source(raw[i]));
    }
  }

  /** On a flat record the step raises only on a contract whose score is
      neither None nor a number. */
  lemma ScreenRaises(token: Record, rugScore: RugFetcher, fetchTwitter: TwitterFetcher)
    requires FlatNumeric(token)
    requires Screen(token, rugScore, fetchTwitter).Err?
    ensures Truthy(Get(token, "contract", Null))
    ensures rugScore(Get(token, "contract", Null)) != Null
    ensures AsNumber(rugScore(Get(token, "contract", Null))).None?
  {
    ScreenDecision(token, rugScore, fetchTwitter);
  }

  /** Once standardization succeeds the script can only fail on a rug score
      that cannot be compared with 50 (a string, a list or a dict): the
      suspicion filter and the scorer never raise on flat records. */
  lemma OnlyRugScoresRaise(pumpTokens: seq<Record>, dexTokens: seq<Record>,
                           rugScore: RugFetcher, fetchTwitter: TwitterFetcher)
    requires Standardized(pumpTokens, dexTokens).Ok?
    requires Report(pumpTokens, dexTokens, rugScore, fetchTwitter).Err?
    ensures Report(pumpTokens, dexTokens, rugScore, fetchTwitter).error == TypeError
    ensures exists t :: (t in SolanaOnly(Standardized(pumpTokens, dexTokens).value)
                         && Truthy(Get(t, "contract", Null))
                         && rugScore(Get(t, "contract", Null)) != Null
                         && AsNumber(rugScore(Get(t, "contract", Null))).None?)
  {
    var solana := SolanaOnly(Standardized(pumpTokens, dexTokens).value);
    var step := ScreenStep(rugScore, fetchTwitter);
    var collected := CollectAll(solana, step);
    assert collected.Err?;
    var k :| 0 <= k < |solana| && step(solana[k]) == Err(collected.error);
    var t := solana[k];
    SolanaTokensAreFlat(pumpTokens, dexTokens);
    assert t in solana;
    ScreenRaises(t, rugScore, fetchTwitter);
  }

  /** The report is ranked by upside score, keeps the loop's order among
      equal scores and has at most one row per fetched token. */
  lemma ReportRanked(pumpTokens: seq<Record>, dexTokens: seq<Record>,
                     rugScore: RugFetcher, fetchTwitter: TwitterFetcher)
    requires Report(pumpTokens, dexTokens, rugScore, fetchTwitter).Ok?
    ensures var report := Report(pumpTokens, dexTokens, rugScore, fetchTwitter).value;
      var rows := Screened(pumpTokens, dexTokens, rugScore, fetchTwitter).value;
      && SortedDesc(report, UpsideScore)
      && multiset(report) == multiset(rows)
      && (forall k: real :: WithKey(report, UpsideScore, k) == WithKey(rows, UpsideScore, k))
      && |report| <= |pumpTokens| + |dexTokens|
  {
    var solana := SolanaOnly(Standardized(pumpTokens, dexTokens).value);
    RankedCollected(solana, ScreenStep(rugScore, fetchTwitter), UpsideScore);
    assert |Standardized(pumpTokens, dexTokens).value| == |pumpTokens + dexTokens|;
  }

  /** The report loop's rows come in fetch order: the rows of two
      consecutive runs of fetched tokens are the rows of the first run
      followed by the rows of the second. */
  lemma ScreenedAppend(xs: seq<Record>, ys: seq<Record>,
                       rugScore: RugFetcher, fetchTwitter: TwitterFetcher)
    requires Screened(xs + ys, [], rugScore, fetchTwitter).Ok?
    ensures Screened(xs, [], rugScore, fetchTwitter).Ok? && Screened(ys, [], rugScore, fetchTwitter).Ok?
    ensures Screened(xs + ys, [], rugScore, fetchTwitter).value ==
      Screened(xs, [], rugScore, fetchTwitter).value + Screened(ys, [], rugScore, fetchTwitter).value
  {
    var f := StandardizeStep(StandardizeToken);
    var step := ScreenStep(rugScore, fetchTwitter);
    assert xs + ys + [] == xs + ys && xs + [] == xs && ys + [] == ys;
    MapAllAppend(xs, ys, f);
    var sx := MapAll(xs, f).value;
    var sy := MapAll(ys, f).value;
    SolanaOnlyAppend(sx, sy);
    CollectAllAppend(SolanaOnly(sx), SolanaOnly(sy), step);
  }

  /** One fetched token gives at most one row: the row the report step
      makes of its standardized record, when that record is on Solana. */
  lemma ScreenedOne(token: Record, rugScore: RugFetcher, fetchTwitter: TwitterFetcher)
    requires Screened([token], [], rugScore, fetchTwitter).Ok?
    ensures var std := StandardizeToken(token, Source(token));
      var rows := Screened([token], [], rugScore, fetchTwitter).value;
      && std.Ok?
      && |rows| <= 1
      && (!OnSolana(std.value) ==> rows == [])
      && (OnSolana(std.value) ==>
            Screen(std.value, rugScore, fetchTwitter) == Ok(if rows == [] then None else Some(rows[0])))
  {
    var f := StandardizeStep(StandardizeToken);
    assert [token] + [] == [token];
    var std := MapAll([token], f).value;
    assert f([token][0]) == Ok(std[0]);
    assert std == [std[0]];
    SolanaOnlySingleton(std[0]);
    CollectAllSingleton(std[0], ScreenStep(rugScore, fetchTwitter));
  }

  /** Among rows with equal upside scores, the rows of pump.fun tokens come
      before the rows of DexScreener tokens, each in fetch order. */
  lemma PumpFunRowsFirst(pumpTokens: seq<Record>, dexTokens: seq<Record>,
                         rugScore: RugFetcher, fetchTwitter: TwitterFetcher)
    requires Report(pumpTokens, dexTokens, rugScore, fetchTwitter).Ok?
    ensures Screened(pumpTokens, [], rugScore, fetchTwitter).Ok?
    ensures Screened([], dexTokens, rugScore, fetchTwitter).Ok?
    ensures var pumpRows := Screened(pumpTokens, [], rugScore, fetchTwitter).value;
      var dexRows := Screened([], dexTokens, rugScore, fetchTwitter).value;
      && Screened(pumpTokens, dexTokens, rugScore, fetchTwitter).value == pumpRows + dexRows
      && forall k: real :: WithKey(Report(pumpTokens, dexTokens, rugScore, fetchTwitter).value, UpsideScore, k)
           == WithKey(pumpRows, UpsideScore, k) + WithKey(dexRows, UpsideScore, k)
  {
    assert pumpTokens + dexTokens + [] == pumpTokens + dexTokens && [] + dexTokens == dexTokens + [];
    assert Screened(pumpTokens, dexTokens, rugScore, fetchTwitter)
        == Screened(pumpTokens + dexTokens, [], rugScore, fetchTwitter);
    assert Screened([], dexTokens, rugScore, fetchTwitter) == Screened(dexTokens, [], rugScore, fetchTwitter);
    ScreenedAppend(pumpTokens, dexTokens, rugScore, fetchTwitter);
    var pumpRows := Screened(pumpTokens, [], rugScore, fetchTwitter).value;
    var dexRows := Screened([], dexTokens, rugScore, fetchTwitter).value;
    var rows := Screened(pumpTokens, dexTokens, rugScore, fetchTwitter).value;
    forall k: real
      ensures WithKey(Report(pumpTokens, dexTokens, rugScore, fetchTwitter).value, UpsideScore, k)
           == WithKey(pumpRows, UpsideScore, k) + WithKey(dexRows, UpsideScore, k)
    {
      SortDescStable(rows, UpsideScore, k);
      WithKeyAppend(pumpRows, dexRows, UpsideScore, k);
    }
  }

  /** Each row of the report is the row of one Solana token that is not
      suspicious and passed the RugCheck gate. */
  lemma ReportSound(pumpTokens: seq<Record>, dexTokens: seq<Record>,
                    rugScore: RugFetcher, fetchTwitter: TwitterFetcher, row: Record)
    requires Report(pumpTokens, dexTokens, rugScore, fetchTwitter).Ok?
    requires row in Report(pumpTokens, dexTokens, rugScore, fetchTwitter).value
    ensures exists i :: (0 <= i < |SolanaOnly(Standardized(pumpTokens, dexTokens).value)| &&
      Screen(SolanaOnly(Standardized(pumpTokens, dexTokens).value)[i], rugScore, fetchTwitter) == Ok(Some(row)))
  {
    var solana := SolanaOnly(Standardized(pumpTokens, dexTokens).value);
    var step := ScreenStep(rugScore, fetchTwitter);
    RankedCollected(solana, step, UpsideScore);
    assert Screened(pumpTokens, dexTokens, rugScore, fetchTwitter) == CollectAll(solana, step);
    assert row in SortDesc(CollectAll(solana, step).value, UpsideScore);
    var i :| 0 <= i < |solana| && step(solana[i]) == Ok(Some(row));
    assert Screen(solana[i], rugScore, fetchTwitter) == Ok(Some(row));
  }

  /** Every Solana token the step keeps has its row in the report. */
  lemma ReportComplete(pumpTokens: seq<Record>, dexTokens: seq<Record>,
                       rugScore: RugFetcher, fetchTwitter: TwitterFetcher, i: nat)
    requires Report(pumpTokens, dexTokens, rugScore, fetchTwitter).Ok?
    requires i < |SolanaOnly(Standardized(pumpTokens, dexTokens).value)|
    requires var t := SolanaOnly(Standardized(pumpTokens, dexTokens).value)[i];
      Screen(t, rugScore, fetchTwitter).Ok? && Screen(t, rugScore, fetchTwitter).value.Some?
    ensures var t := SolanaOnly(Standardized(pumpTokens, dexTokens).value)[i];
      Screen(t, rugScore, fetchTwitter).value.value in Report(pumpTokens, dexTokens, rugScore, fetchTwitter).value
  {
    var solana := SolanaOnly(Standardized(pumpTokens, dexTokens).value);
    var step := ScreenStep(rugScore, fetchTwitter);
    RankedCollected(solana, step, UpsideScore);
    assert step(solana[i]) == Screen(solana[i], rugScore, fetchTwitter);
  }

  /** Every row of the report has the six keys. */
  lemma ReportRowKeys(pumpTokens: seq<Record>, dexTokens: seq<Record>,
                      rugScore: RugFetcher, fetchTwitter: TwitterFetcher)
    requires Report(pumpTokens, dexTokens, rugScore, fetchTwitter).Ok?
    ensures forall row :: row in Report(pumpTokens, dexTokens, rugScore, fetchTwitter).value ==>
      row.Keys == ResultKeys
  {
    var solana := SolanaOnly(Standardized(pumpTokens, dexTokens).value);
    var step := ScreenStep(rugScore, fetchTwitter);
    RankedCollected(solana, step, UpsideScore);
  }

  /** A pump.fun token on chain "Solana" with volume 100, price change 10 and
      liquidity 50 and nothing else standardizes to these eight fields... */
  lemma StandardizeExample()
    ensures StandardizeToken(map["source" := Str("pump.fun"), "name" := Str("Moon"),
                                 "chain" := Str("Solana"), "volume" := Num(100.0),
                                 "priceChange" := Num(10.0), "liquidity" := Num(50.0)], Str("pump.fun"))
      == Ok(ExampleToken)
  {
    var raw: Record := map["source" := Str("pump.fun"), "name" := Str("Moon"),
                           "chain" := Str("Solana"), "volume" := Num(100.0),
                           "priceChange" := Num(10.0), "liquidity" := Num(50.0)];
    assert LowerValue(Get(raw, "chain", Str(""))) == Ok(Str("solana")) by { LowerSolana(); }
    assert ToFloat(Get(raw, "volume", Num(0.0))) == Ok(100.0);
    assert ToFloat(Get(raw, "priceChange", Num(0.0))) == Ok(10.0);
    assert ToFloat(Get(raw, "liquidity", Num(0.0))) == Ok(50.0);
    assert Get(raw, "symbol", Str("N/A")) == Str("N/A");
    assert Get(raw, "twitter", Null) == Null;
    assert Get(raw, "contract_address", Null) == Null;
  }

  const ExampleToken: Record := map[
    "name" := Str("Moon"), "symbol" := Str("N/A"), "chain" := Str("solana"),
    "volume" := Num(100.0), "price_change" := Num(10.0), "liquidity" := Num(50.0),
    "twitter" := Null, "contract" := Null]

  lemma LowerSolana()
    ensures Lower("Solana") == "solana"
  {
    assert Lower("a") == "a";
    assert Lower("na") == "na";
    assert Lower("ana") == "ana";
    assert Lower("lana") == "lana";
    assert Lower("olana") == "olana";
  }

  lemma ExampleNotSuspicious()
    ensures Suspicion.IsTokenSuspicious(ExampleToken) == Ok(false)
  {
    assert NumberOr0(ExampleToken, "volume") == 100.0;
    assert NumberOr0(ExampleToken, "liquidity") == 50.0;
    assert NumberOr0(ExampleToken, "price_change") == 10.0;
  }

  lemma ExampleScore()
    ensures AnalyzeFlatToken(ExampleToken["rug_score" := Str("N/A")]) == Ok(41.0)
  {
    var marked := ExampleToken["rug_score" := Str("N/A")];
    assert FlatFeatures(marked) == Features(Num(100.0), Num(10.0), Num(50.0));
  }

  /** ... and, with no contract, is kept with upside score
      0.6 * 10 + 0.3 * 100 + 0.1 * 50 = 41 and rug score "N/A"; having no
      handle, its Twitter summary is empty. */
  lemma ScreenExample(rugScore: RugFetcher, fetchTwitter: TwitterFetcher)
    ensures OnSolana(ExampleToken)
    ensures var r := Screen(ExampleToken, rugScore, fetchTwitter);
      && r == Ok(Some(Row(ExampleToken["rug_score" := Str("N/A")], 41.0, fetchTwitter)))
      && r.value.value["upside_score"] == Num(41.0)
      && r.value.value["rug_score"] == Str("N/A")
      && r.value.value["twitter_info"] == Obj(map[])
  {
    ExampleNotSuspicious();
    ExampleScore();
    assert RugGate(Get(ExampleToken, "contract", Null), rugScore) == Ok(Some(Str("N/A")));
  }
}
