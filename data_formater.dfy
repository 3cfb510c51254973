/** TrojanBot/utils/data_formater.py: the package's scorer, which reads the
    features from DexScreener's nested windows (`volume.h24`,
    `priceChange.h1`, `liquidity.usd`) and rounds the score to two
    decimals, and its six-field standardizer. */
module DataFormater {
  import opened Json
  import opened Scoring

  /** `field.get(sub, 0)` on a field read with default `{}`: only a dict has
      `.get`; anything else raises AttributeError. */
  function SubField(field: Value, sub: string): Option<Value>
  {
    if field.Obj? then Some(Get(field.fields, sub, Num(0.0))) else None
  }

  /** The three top-level fields are dicts (or missing, which reads as `{}`). */
  predicate Nested(token: Record)
  {
    && Get(token, "volume", Obj(map[])).Obj?
    && Get(token, "price_change", Obj(map[])).Obj?
    && Get(token, "liquidity", Obj(map[])).Obj?
  }

  /** `extract_features(token)`: `[volume.h24, price_change.h1, liquidity.usd]`
      with 0 for a missing window; the `except` swallows the AttributeError
      of a field that is not a dict, and the function then returns None. */
  function ExtractFeatures(token: Record): (r: Option<Features>)
    ensures r.Some? <==> Nested(token)
    ensures r.Some? ==> r.value == Features(
      Get(Get(token, "volume", Obj(map[])).fields, "h24", Num(0.0)),
      Get(Get(token, "price_change", Obj(map[])).fields, "h1", Num(0.0)),
      Get(Get(token, "liquidity", Obj(map[])).fields, "usd", Num(0.0)))
  {
    var volume := Get(token, "volume", Obj(map[]));
    var priceChange := Get(token, "price_change", Obj(map[]));
    var liquidity := Get(token, "liquidity", Obj(map[]));
    match (SubField(volume, "h24"), SubField(priceChange, "h1"), SubField(liquidity, "usd"))
    case (Some(v), Some(pc), Some(l)) => Some(Features(v, pc, l))
    case _ => None
  }

  /** A record without the three fields, or with empty windows, has the
      features `[0, 0, 0]`. */
  lemma ExtractFeaturesDefaults(token: Record)
    requires forall key :: key in token ==> token[key] == Obj(map[])
    ensures ExtractFeatures(token) == Some(Features(Num(0.0), Num(0.0), Num(0.0)))
  {
    assert Get(token, "volume", Obj(map[])) == Obj(map[]);
    assert Get(token, "price_change", Obj(map[])) == Obj(map[]);
    assert Get(token, "liquidity", Obj(map[])) == Obj(map[]);
  }

  /** `dummy_ai_score(features)` of the package: the weighted sum rounded to
      two decimals; unpacking the None of a failed extraction raises
      TypeError. */
  function DummyAiScore(features: Option<Features>): (r: Result<real>)
    ensures r.Ok? <==> features.Some? && Scoring.DummyAiScore(features.value).Ok?
    ensures r.Ok? ==> r.value == Round2(Scoring.DummyAiScore(features.value).value)
    ensures r.Err? ==> r.error == TypeError
  {
    match features
    case None => Err(TypeError)
    case Some(f) =>
      match Scoring.DummyAiScore(f)
      case Ok(score) => Ok(Round2(score))
      case Err(e) => Err(e)
  }

  /** `analyze_token(token)`: `dummy_ai_score(extract_features(token))`. */
  function AnalyzeToken(token: Record): (r: Result<real>)
    ensures r.Ok? <==> Nested(token) && Scoring.DummyAiScore(ExtractFeatures(token).value).Ok?
    ensures r.Ok? ==> r.value == Round2(Scoring.DummyAiScore(ExtractFeatures(token).value).value)
    ensures r.Err? ==> r.error == TypeError
    ensures !Nested(token) ==> r.Err?
  {
    DummyAiScore(ExtractFeatures(token))
  }

  /** A record without any feature field scores 0. */
  lemma AnalyzeEmptyToken()
    ensures AnalyzeToken(map[]) == Ok(0.0)
  {
    ExtractFeaturesDefaults(map[]);
    ZeroFeaturesScoreZero();
    Round2Zero();
  }

  lemma ZeroFeaturesScoreZero()
    ensures Scoring.DummyAiScore(Features(Num(0.0), Num(0.0), Num(0.0))) == Ok(0.0)
  {
    assert AsNumber(Num(0.0)) == Some(0.0);
  }

  /** A score is a two-decimal value, so rounding it again returns it
      unchanged. */
  lemma DummyAiScoreRounded(f: Features)
    requires Scoring.DummyAiScore(f).Ok?
    ensures Round2(DummyAiScore(Some(f)).value) == DummyAiScore(Some(f)).value
  {
    Round2Idempotent(Scoring.DummyAiScore(f).value);
  }

  /** A score is within half a hundredth of the unrounded weighted sum. */
  lemma DummyAiScoreNearSum(f: Features)
    requires Scoring.DummyAiScore(f).Ok?
    ensures -0.005 <= DummyAiScore(Some(f)).value - Scoring.DummyAiScore(f).value <= 0.005
  {
    Round2Close(Scoring.DummyAiScore(f).value, DummyAiScore(Some(f)).value);
  }

  /** A flat number in a feature field (the shape every pump.fun record has
      after standardization) makes `analyze_token` raise TypeError. */
  lemma AnalyzeTokenRejectsFlatFields(token: Record)
    requires Get(token, "volume", Obj(map[])).Num? || Get(token, "price_change", Obj(map[])).Num?
          || Get(token, "liquidity", Obj(map[])).Num?
    ensures AnalyzeToken(token) == Err(TypeError)
  {
  }

  /** `standardize_token(token, source)`: the six-field record. A non-string
      chain raises AttributeError at `.lower()`, then `float()` is applied to
      the pump.fun volume, price change and liquidity in that order. */
  function StandardizeToken(token: Record, source: Value): (r: Result<Record>)
    ensures source != Str("pump.fun") && source != Str("dexscreener") ==> r == Ok(map[])
    ensures source == Str("pump.fun") ==>
      (r.Ok? <==> Get(token, "chain", Str("")).Str? && FlatInput(token))
    ensures source == Str("dexscreener") ==> (r.Ok? <==> Get(token, "chainId", Str("")).Str?)
    ensures source == Str("pump.fun") && r.Ok? ==>
      r.value.Keys == Fields && r.value["chain"] == Str(Lower(Get(token, "chain", Str("")).s))
    ensures source == Str("dexscreener") && r.Ok? ==>
      r.value.Keys == Fields && r.value["chain"] == Str(Lower(Get(token, "chainId", Str("")).s))
  {
    if source == Str("pump.fun") then
      var chain :- LowerValue(Get(token, "chain", Str("")));
      var volume :- ToFloat(Get(token, "volume", Num(0.0)));
      var priceChange :- ToFloat(Get(token, "priceChange", Num(0.0)));
      var liquidity :- ToFloat(Get(token, "liquidity", Num(0.0)));
      Ok(map[
        "name" := Get(token, "name", Str("Unknown")),
        "symbol" := Get(token, "symbol", Str("N/A")),
        "chain" := chain,
        "volume" := Num(volume),
        "price_change" := Num(priceChange),
        "liquidity" := Num(liquidity)])
    else if source == Str("dexscreener") then
      var chain :- LowerValue(Get(token, "chainId", Str("")));
      Ok(map[
        "name" := Get(token, "name", Str("Unknown")),
        "symbol" := Get(token, "symbol", Str("N/A")),
        "chain" := chain,
        "volume" := Get(token, "volume", Obj(map[])),
        "price_change" := Get(token, "priceChange", Obj(map[])),
        "liquidity" := Get(token, "liquidity", Obj(map[]))])
    else
      Ok(map[])
  }

  const Fields: set<string> := {"name", "symbol", "chain", "volume", "price_change", "liquidity"}

  /** `float()` accepts the raw pump.fun volume, priceChange and liquidity. */
  predicate FlatInput(token: Record)
  {
    && AsNumber(Get(token, "volume", Num(0.0))).Some?
    && AsNumber(Get(token, "priceChange", Num(0.0))).Some?
    && AsNumber(Get(token, "liquidity", Num(0.0))).Some?
  }

  /** A pump.fun record that carries only its source tag standardizes to
      the defaults. */
  lemma PumpFunDefaults()
    ensures StandardizeToken(map["source" := Str("pump.fun")], Str("pump.fun")) == Ok(map[
      "name" := Str("Unknown"), "symbol" := Str("N/A"), "chain" := Str(""),
      "volume" := Num(0.0), "price_change" := Num(0.0), "liquidity" := Num(0.0)])
  {
  }

  /** DexScreener's nested windows pass through unchanged, `{}` when absent,
      and the chain comes from `chainId`. */
  lemma DexScreenerPassThrough(token: Record)
    requires Get(token, "chainId", Str("")).Str?
    ensures var r := StandardizeToken(token, Str("dexscreener"));
      && r.Ok?
      && r.value["chain"] == Str(Lower(Get(token, "chainId", Str("")).s))
      && r.value["volume"] == Get(token, "volume", Obj(map[]))
      && r.value["price_change"] == Get(token, "priceChange", Obj(map[]))
      && r.value["liquidity"] == Get(token, "liquidity", Obj(map[]))
  {
  }

  /** A standardized pump.fun record cannot be scored: its flat float
      volume has no `.get`. */
  lemma PumpFunRecordsCannotBeScored(token: Record)
    requires StandardizeToken(token, Str("pump.fun")).Ok?
    ensures AnalyzeToken(StandardizeToken(token, Str("pump.fun")).value) == Err(TypeError)
  {
    var t := StandardizeToken(token, Str("pump.fun")).value;
    assert Get(t, "volume", Obj(map[])).Num?;
    AnalyzeTokenRejectsFlatFields(t);
  }

  // ---------------------------------------------------------------------
  // The extraction the scorer evidently intends (both shapes accepted)

  /** A dict is read at its window, a flat value is the feature itself. */
  function EitherShape(field: Value, sub: string): Value
  {
    if field.Obj? then Get(field.fields, sub, Num(0.0)) else field
  }

  function ExtractFeaturesEitherShape(token: Record): Features
  {
    Features(EitherShape(Get(token, "volume", Obj(map[])), "h24"),
             EitherShape(Get(token, "price_change", Obj(map[])), "h1"),
             EitherShape(Get(token, "liquidity", Obj(map[])), "usd"))
  }

  /** The corrected score: it agrees with `analyze_token` wherever that
      returns, and scores flat records (pump.fun's shape) by their numbers. */
  function AnalyzeTokenEitherShape(token: Record): (r: Result<real>)
    ensures AnalyzeToken(token).Ok? ==> r == AnalyzeToken(token)
    ensures Nested(token) ==> r == AnalyzeToken(token)
    ensures FlatNumeric(token) ==>
      r == Ok(Round2(Weighted(NumberOr0(token, "volume"), NumberOr0(token, "price_change"),
                              NumberOr0(token, "liquidity"))))
  {
    EitherShapeOnNested(token);
    EitherShapeOnFlat(token);
    match Scoring.DummyAiScore(ExtractFeaturesEitherShape(token))
    case Ok(score) => Ok(Round2(score))
    case Err(e) => Err(e)
  }

  /** On dict fields the corrected extraction reads the same windows. */
  lemma EitherShapeOnNested(token: Record)
    ensures Nested(token) ==> ExtractFeaturesEitherShape(token) == ExtractFeatures(token).value
  {
  }

  /** On flat numeric fields the corrected extraction yields the weighted
      sum of the numbers. */
  lemma EitherShapeOnFlat(token: Record)
    ensures FlatNumeric(token) ==>
      Scoring.DummyAiScore(ExtractFeaturesEitherShape(token))
        == Ok(Weighted(NumberOr0(token, "volume"), NumberOr0(token, "price_change"), NumberOr0(token, "liquidity")))
  {
  }

  /** Every standardized pump.fun record gets a score under the corrected
      extraction. */
  lemma PumpFunRecordsScoredEitherShape(token: Record)
    requires StandardizeToken(token, Str("pump.fun")).Ok?
    ensures AnalyzeTokenEitherShape(StandardizeToken(token, Str("pump.fun")).value).Ok?
  {
    var t := StandardizeToken(token, Str("pump.fun")).value;
    assert FlatNumeric(t);
  }
}
