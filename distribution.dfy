/** TrojanBot/utils/distribution.py: the package's `Distribution` class. It
    validates its configuration, fetches the pump.fun and DexScreener
    listings, standardizes every token to the eleven-field record and
    annotates each record in place with its upside score and RugCheck
    score. The HTTP fetchers are parameters of `Dist`. */
module Distribution {
  import opened Json
  import opened Pipeline
  import DataFormater
  import Scoring

  // ---------------------------------------------------------------------
  // Configuration

  /** The variables `enviroments` requires, in the order it checks them. */
  const RequiredVars: seq<string> := ["DEX_API_URL", "PUMPFUN_URL", "RUGCHECK_API_URL"]

  /** `os.getenv(name)` is truthy: set and not empty. */
  predicate IsSet(env: map<string, string>, name: string)
  {
    name in env && env[name] != ""
  }

  /** The position of the first variable that is unset or empty, or `|vars|`
      when all are set. */
  function FirstMissing(env: map<string, string>, vars: seq<string>): (r: nat)
    ensures r <= |vars|
    ensures forall i :: 0 <= i < r ==> IsSet(env, vars[i])
    ensures r < |vars| ==> !IsSet(env, vars[r])
  {
    if vars == [] || !IsSet(env, vars[0]) then 0
    else 1 + FirstMissing(env, vars[1..])
  }

  /** The first unset variable is the one a scan in order stops at. */
  lemma FirstMissingAt(env: map<string, string>, vars: seq<string>, i: nat)
    requires i <= |vars|
    requires forall j :: 0 <= j < i ==> IsSet(env, vars[j])
    requires i < |vars| ==> !IsSet(env, vars[i])
    ensures FirstMissing(env, vars) == i
  {
  }

  function MissingMessage(name: string): string
  {
    "Missing required environment variable: " + name
  }

  /** The entries `self.enviroment[var] = value` stores for `vars`, in order. */
  function Loaded(env: map<string, string>, vars: seq<string>): (r: map<string, string>)
    requires forall i :: 0 <= i < |vars| ==> vars[i] in env
    ensures forall i :: 0 <= i < |vars| ==> vars[i] in r && r[vars[i]] == env[vars[i]]
  {
    if vars == [] then map[]
    else
      var n := |vars| - 1;
      Loaded(env, vars[..n])[vars[n] := env[vars[n]]]
  }

  /** Storing one more variable extends the stored entries by it. */
  lemma LoadedStep(env: map<string, string>, vars: seq<string>, i: nat, before: map<string, string>)
    requires i < |vars| && forall j :: 0 <= j <= i ==> vars[j] in env
    ensures before + Loaded(env, vars[..i + 1]) == (before + Loaded(env, vars[..i]))[vars[i] := env[vars[i]]]
  {
    assert vars[..i + 1][..i] == vars[..i];
  }

  /** Once every variable is stored, each one maps to its value. */
  lemma LoadedAll(env: map<string, string>, vars: seq<string>, before: map<string, string>)
    requires forall j :: 0 <= j < |vars| ==> vars[j] in env
    ensures forall i :: 0 <= i < |vars| ==>
              vars[i] in before + Loaded(env, vars) && (before + Loaded(env, vars))[vars[i]] == env[vars[i]]
  {
  }

  // ---------------------------------------------------------------------
  // Standardization

  /** `Distribution.standardize_token(token, source)`: the eleven-field
      record. Fields are read in the order the dict literal lists them, so a
      non-string chain raises AttributeError before `float()` is applied to
      the pump.fun volume, price change and liquidity. */
  function StandardizeToken(token: Record, source: Value): (r: Result<Record>)
    ensures source != Str("pump.fun") && source != Str("dexscreener") ==> r == Ok(map[])
    ensures source == Str("pump.fun") ==>
      (r.Ok? <==> Get(token, "chain", Str("")).Str? && DataFormater.FlatInput(token))
    ensures source == Str("dexscreener") ==> (r.Ok? <==> Get(token, "chainId", Str("")).Str?)
  {
    if source == Str("pump.fun") then
      var chain :- LowerValue(Get(token, "chain", Str("")));
      var volume :- ToFloat(Get(token, "volume", Num(0.0)));
      var priceChange :- ToFloat(Get(token, "priceChange", Num(0.0)));
      var liquidity :- ToFloat(Get(token, "liquidity", Num(0.0)));
      Ok(map[
        "name" := Get(token, "name", Str("Unknown")),
        "icon" := Get(token, "icon", Str("img.png")),
        "description" := Get(token, "description", Str("N/A")),
        "address" := Get(token, "address", Str("N/A")),
        "symbol" := Get(token, "symbol", Str("N/A")),
        "chain" := chain,
        "price_usd" := Get(token, "priceUsd", Num(0.0)),
        "market_cap" := Get(token, "marketCap", Num(0.0)),
        "volume" := Num(volume),
        "price_change" := Num(priceChange),
        "liquidity" := Num(liquidity)])
    else if source == Str("dexscreener") then
      var chain :- LowerValue(Get(token, "chainId", Str("")));
      Ok(map[
        "name" := Get(token, "name", Str("Unknown")),
        "icon" := Get(token, "icon", Str("img.png")),
        "description" := Get(token, "description", Str("N/A")),
        "symbol" := Get(token, "symbol", Str("N/A")),
        "address" := Get(token, "tokenAddress", Str("N/A")),
        "chain" := chain,
        "price_usd" := Get(token, "priceUsd", Num(0.0)),
        "market_cap" := Get(token, "marketCap", Num(0.0)),
        "volume" := Get(token, "volume", Obj(map[])),
        "price_change" := Get(token, "priceChange", Obj(map[])),
        "liquidity" := Get(token, "liquidity", Obj(map[]))])
    else
      Ok(map[])
  }

  const Fields: set<string> := DataFormater.Fields + {"icon", "description", "address", "price_usd", "market_cap"}

  /** A standardized pump.fun record: the eleven fields, the lower-cased
      chain, the address or "N/A", and flat numbers for the features. */
  lemma PumpFunStandardized(token: Record)
    requires StandardizeToken(token, Str("pump.fun")).Ok?
    ensures var r := StandardizeToken(token, Str("pump.fun")).value;
      && r.Keys == Fields
      && r["chain"] == Str(Lower(Get(token, "chain", Str("")).s))
      && r["address"] == Get(token, "address", Str("N/A"))
      && r["volume"] == Num(AsNumber(Get(token, "volume", Num(0.0))).value)
      && r["price_change"] == Num(AsNumber(Get(token, "priceChange", Num(0.0))).value)
      && r["liquidity"] == Num(AsNumber(Get(token, "liquidity", Num(0.0))).value)
  {
    StandardizedKeys(token, Str("pump.fun"));
    PumpFunIdentity(token);
    PumpFunNumbers(token);
  }

  lemma StandardizedKeys(token: Record, source: Value)
    requires source == Str("pump.fun") || source == Str("dexscreener")
    requires StandardizeToken(token, source).Ok?
    ensures StandardizeToken(token, source).value.Keys == Fields
  {
  }

  lemma PumpFunIdentity(token: Record)
    requires StandardizeToken(token, Str("pump.fun")).Ok?
    ensures var r := StandardizeToken(token, Str("pump.fun")).value;
      && r["chain"] == Str(Lower(Get(token, "chain", Str("")).s))
      && r["address"] == Get(token, "address", Str("N/A"))
  {
  }

  lemma PumpFunNumbers(token: Record)
    requires StandardizeToken(token, Str("pump.fun")).Ok?
    ensures var r := StandardizeToken(token, Str("pump.fun")).value;
      && r["volume"] == Num(AsNumber(Get(token, "volume", Num(0.0))).value)
      && r["price_change"] == Num(AsNumber(Get(token, "priceChange", Num(0.0))).value)
      && r["liquidity"] == Num(AsNumber(Get(token, "liquidity", Num(0.0))).value)
  {
  }

  /** A standardized DexScreener record: the eleven fields, the chain from
      `chainId` lower-cased, the address from `tokenAddress` or "N/A", and the
      nested windows passed through, `{}` when absent. */
  lemma DexScreenerStandardized(token: Record)
    requires StandardizeToken(token, Str("dexscreener")).Ok?
    ensures var r := StandardizeToken(token, Str("dexscreener")).value;
      && r.Keys == Fields
      && r["chain"] == Str(Lower(Get(token, "chainId", Str("")).s))
      && r["address"] == Get(token, "tokenAddress", Str("N/A"))
      && r["volume"] == Get(token, "volume", Obj(map[]))
      && r["price_change"] == Get(token, "priceChange", Obj(map[]))
      && r["liquidity"] == Get(token, "liquidity", Obj(map[]))
  {
    StandardizedKeys(token, Str("dexscreener"));
    DexScreenerIdentity(token);
    DexScreenerWindows(token);
  }

  lemma DexScreenerIdentity(token: Record)
    requires StandardizeToken(token, Str("dexscreener")).Ok?
    ensures var r := StandardizeToken(token, Str("dexscreener")).value;
      && r["chain"] == Str(Lower(Get(token, "chainId", Str("")).s))
      && r["address"] == Get(token, "tokenAddress", Str("N/A"))
  {
  }

  lemma DexScreenerWindows(token: Record)
    requires StandardizeToken(token, Str("dexscreener")).Ok?
    ensures var r := StandardizeToken(token, Str("dexscreener")).value;
      && r["volume"] == Get(token, "volume", Obj(map[]))
      && r["price_change"] == Get(token, "priceChange", Obj(map[]))
      && r["liquidity"] == Get(token, "liquidity", Obj(map[]))
  {
  }

  /** The package's six-field standardizer is the class's one restricted to
      six of its fields: both raise on the same records, and where they
      return the six fields are among the eleven and agree with them. */
  lemma SixFieldsAreARestriction(token: Record, source: Value)
    ensures StandardizeToken(token, source).Ok? <==> DataFormater.StandardizeToken(token, source).Ok?
    ensures StandardizeToken(token, source).Ok? ==>
      var six := DataFormater.StandardizeToken(token, source).value;
      var eleven := StandardizeToken(token, source).value;
      six.Keys <= eleven.Keys && forall k :: k in six ==> six[k] == eleven[k]
  {
    if StandardizeToken(token, source).Ok? && (source == Str("pump.fun") || source == Str("dexscreener")) {
      StandardizedKeys(token, source);
      SharedFields(token, source);
    }
  }

  lemma SharedFields(token: Record, source: Value)
    requires source == Str("pump.fun") || source == Str("dexscreener")
    requires StandardizeToken(token, source).Ok? && DataFormater.StandardizeToken(token, source).Ok?
    ensures var six := DataFormater.StandardizeToken(token, source).value;
      var eleven := StandardizeToken(token, source).value;
      forall k :: k in six ==> k in eleven && six[k] == eleven[k]
  {
    if source == Str("pump.fun") {
      PumpFunSharedFields(token);
    } else {
      DexScreenerSharedFields(token);
    }
  }

  lemma PumpFunSharedFields(token: Record)
    requires StandardizeToken(token, Str("pump.fun")).Ok?
    requires DataFormater.StandardizeToken(token, Str("pump.fun")).Ok?
    ensures var six := DataFormater.StandardizeToken(token, Str("pump.fun")).value;
      var eleven := StandardizeToken(token, Str("pump.fun")).value;
      forall k :: k in six ==> k in eleven && six[k] == eleven[k]
  {
    var six := DataFormater.StandardizeToken(token, Str("pump.fun")).value;
    forall k | k in six
      ensures k in StandardizeToken(token, Str("pump.fun")).value
      ensures six[k] == StandardizeToken(token, Str("pump.fun")).value[k]
    {
      assert k in DataFormater.Fields;
    }
  }

  lemma DexScreenerSharedFields(token: Record)
    requires StandardizeToken(token, Str("dexscreener")).Ok?
    requires DataFormater.StandardizeToken(token, Str("dexscreener")).Ok?
    ensures var six := DataFormater.StandardizeToken(token, Str("dexscreener")).value;
      var eleven := StandardizeToken(token, Str("dexscreener")).value;
      forall k :: k in six ==> k in eleven && six[k] == eleven[k]
  {
    var six := DataFormater.StandardizeToken(token, Str("dexscreener")).value;
    forall k | k in six
      ensures k in StandardizeToken(token, Str("dexscreener")).value
      ensures six[k] == StandardizeToken(token, Str("dexscreener")).value[k]
    {
      assert k in DataFormater.Fields;
    }
  }

  /** A pump.fun record with nothing but its source tag. */
  lemma PumpFunDefaults()
    ensures StandardizeToken(map["source" := Str("pump.fun")], Str("pump.fun")) == Ok(map[
      "name" := Str("Unknown"), "icon" := Str("img.png"), "description" := Str("N/A"),
      "address" := Str("N/A"), "symbol" := Str("N/A"), "chain" := Str(""),
      "price_usd" := Num(0.0), "market_cap" := Num(0.0),
      "volume" := Num(0.0), "price_change" := Num(0.0), "liquidity" := Num(0.0)])
  {
  }

  // ---------------------------------------------------------------------
  // Annotation

  /** The RugCheck lookup `fetch_rugcheck_score(url, address)`, reduced to the
      score it returns. */
  type RugFetcher = (string, Value) -> Value

  /** The two fields the annotation loop writes into a standardized
      record; every other field is left as it was. */
  function Annotated(token: Record, score: real, rugScore: Value): (r: Record)
    ensures r.Keys == token.Keys + {"upside_score", "rug_score"}
    ensures r["upside_score"] == Num(score) && r["rug_score"] == rugScore
  {
    token["upside_score" := Num(score)]["rug_score" := rugScore]
  }

  /** Annotating leaves every other field of the record as it was. */
  lemma AnnotatedKeepsOtherFields(token: Record, score: real, rugScore: Value)
    ensures Annotated(token, score, rugScore) - {"upside_score", "rug_score"}
            == token - {"upside_score", "rug_score"}
  {
  }

  /** One pass of the annotation loop: `upside_score` from `analyze_token`,
      which raises TypeError on a record it cannot score, then `rug_score`
      from the lookup of `token.get("address", None)`. */
  function Annotate(token: Record, rugUrl: string, fetchRug: RugFetcher): (r: Result<Record>)
    ensures r.Ok? <==> DataFormater.AnalyzeToken(token).Ok?
    ensures r.Err? ==> r.error == TypeError
    ensures r.Ok? ==> r.value == Annotated(token, DataFormater.AnalyzeToken(token).value,
                                           fetchRug(rugUrl, Get(token, "address", Null)))
  {
    match DataFormater.AnalyzeToken(token)
    case Err(e) => Err(e)
    case Ok(score) => Ok(Annotated(token, score, fetchRug(rugUrl, Get(token, "address", Null))))
  }

  function AnnotateStep(rugUrl: string, fetchRug: RugFetcher): Mapping
  {
    t => Annotate(t, rugUrl, fetchRug)
  }

  /** The records fetched from both providers, pump.fun first. */
  function Fetched(env: map<string, string>, fetchPump: string -> seq<Record>,
                   fetchDex: string -> seq<Record>): seq<Record>
    requires "PUMPFUN_URL" in env && "DEX_API_URL" in env
  {
    fetchPump(env["PUMPFUN_URL"]) + fetchDex(env["DEX_API_URL"])
  }

  /** What `dist` returns: every fetched token standardized and annotated,
      in order, with no filter and no sort; or the first exception. */
  function Distributed(env: map<string, string>, fetchPump: string -> seq<Record>,
                       fetchDex: string -> seq<Record>, fetchRug: RugFetcher): Result<seq<Record>>
    requires "PUMPFUN_URL" in env && "DEX_API_URL" in env && "RUGCHECK_API_URL" in env
  {
    var standardized :- MapAll(Fetched(env, fetchPump, fetchDex), StandardizeStep(StandardizeToken));
    MapAll(standardized, AnnotateStep(env["RUGCHECK_API_URL"], fetchRug))
  }

  /** One result per fetched token, in fetch order: the i-th result is the
      i-th fetched token standardized and then annotated. */
  lemma DistributedOnePerToken(env: map<string, string>, fetchPump: string -> seq<Record>,
                               fetchDex: string -> seq<Record>, fetchRug: RugFetcher)
    requires "PUMPFUN_URL" in env && "DEX_API_URL" in env && "RUGCHECK_API_URL" in env
    requires Distributed(env, fetchPump, fetchDex, fetchRug).Ok?
    ensures var raw := Fetched(env, fetchPump, fetchDex);
            var r := Distributed(env, fetchPump, fetchDex, fetchRug).value;
            && |r| == |fetchPump(env["PUMPFUN_URL"])| + |fetchDex(env["DEX_API_URL"])|
            && forall i :: 0 <= i < |raw| ==>
                 && StandardizeToken(raw[i], Source(raw[i])).Ok?
                 && Annotate(StandardizeToken(raw[i], Source(raw[i])).value, env["RUGCHECK_API_URL"], fetchRug)
                    == Ok(r[i])
  {
    var raw := Fetched(env, fetchPump, fetchDex);
    var standardized := MapAll(raw, StandardizeStep(StandardizeToken));
    assert standardized.Ok?;
    var step := AnnotateStep(env["RUGCHECK_API_URL"], fetchRug);
    assert forall i :: 0 <= i < |raw| ==> StandardizeStep(StandardizeToken)(raw[i]) == Ok(standardized.value[i]);
    assert forall i :: 0 <= i < |raw| ==> step(standardized.value[i]) == Ok(Distributed(env, fetchPump, fetchDex, fetchRug).value[i]);
  }

  /** Every record `dist` returns carries the two annotations. */
  lemma DistributedAnnotated(env: map<string, string>, fetchPump: string -> seq<Record>,
                             fetchDex: string -> seq<Record>, fetchRug: RugFetcher)
    requires "PUMPFUN_URL" in env && "DEX_API_URL" in env && "RUGCHECK_API_URL" in env
    requires Distributed(env, fetchPump, fetchDex, fetchRug).Ok?
    ensures forall t: Record :: t in Distributed(env, fetchPump, fetchDex, fetchRug).value ==>
              "upside_score" in t && t["upside_score"].Num? && "rug_score" in t
  {
    var r := Distributed(env, fetchPump, fetchDex, fetchRug).value;
    DistributedOnePerToken(env, fetchPump, fetchDex, fetchRug);
    forall t: Record | t in r
      ensures "upside_score" in t && t["upside_score"].Num? && "rug_score" in t
    {
      var i :| 0 <= i < |r| && r[i] == t;
    }
  }

  /** A standardized token without an address is looked up as "N/A", never
      as None: both providers' records get the `address` default. The
      as-written annotation reaches the lookup only for DexScreener records
      (a pump.fun record raises in the scorer first); the annotation with the
      scorer that reads both shapes reaches it for pump.fun records too. */
  lemma MissingAddressLooksUpNA(token: Record, rugUrl: string, fetchRug: RugFetcher)
    requires Source(token) == Str("pump.fun") || Source(token) == Str("dexscreener")
    requires "address" !in token && "tokenAddress" !in token
    requires StandardizeToken(token, Source(token)).Ok?
    ensures var std := StandardizeToken(token, Source(token)).value;
      && std["address"] == Str("N/A")
      && (Annotate(std, rugUrl, fetchRug).Ok? ==>
            Annotate(std, rugUrl, fetchRug).value["rug_score"] == fetchRug(rugUrl, Str("N/A")))
      && (AnnotateEitherShape(std, rugUrl, fetchRug).Ok? ==>
            AnnotateEitherShape(std, rugUrl, fetchRug).value["rug_score"] == fetchRug(rugUrl, Str("N/A")))
    ensures Source(token) == Str("pump.fun") ==>
      AnnotateEitherShape(StandardizeToken(token, Source(token)).value, rugUrl, fetchRug).Ok?
  {
    var std := StandardizeToken(token, Source(token)).value;
    if Source(token) == Str("pump.fun") {
      PumpFunIdentity(token);
      PumpFunAnnotatedEitherShape(token, rugUrl, fetchRug);
    } else {
      DexScreenerIdentity(token);
    }
    assert Get(std, "address", Null) == Str("N/A");
  }

  /** `dist` raises TypeError as soon as one fetched token is a pump.fun
      token that standardizes: its flat volume cannot be scored. */
  lemma PumpFunTokenMakesDistRaise(env: map<string, string>, fetchPump: string -> seq<Record>,
                                   fetchDex: string -> seq<Record>, fetchRug: RugFetcher, k: nat)
    requires "PUMPFUN_URL" in env && "DEX_API_URL" in env && "RUGCHECK_API_URL" in env
    requires k < |Fetched(env, fetchPump, fetchDex)|
    requires Source(Fetched(env, fetchPump, fetchDex)[k]) == Str("pump.fun")
    ensures Distributed(env, fetchPump, fetchDex, fetchRug).Err?
  {
    var raw := Fetched(env, fetchPump, fetchDex);
    var standardized := MapAll(raw, StandardizeStep(StandardizeToken));
    if standardized.Ok? {
      var t := standardized.value[k];
      assert StandardizeToken(raw[k], Str("pump.fun")) == Ok(t);
      assert Get(t, "volume", Obj(map[])).Num?;
      DataFormater.AnalyzeTokenRejectsFlatFields(t);
      assert !AnnotateStep(env["RUGCHECK_API_URL"], fetchRug)(t).Ok?;
    }
  }

  // ---------------------------------------------------------------------
  // The annotation with the scorer that reads both shapes

  /** The annotation loop's pass with the extraction the scorer evidently
      intends: flat features are scored by their numbers. */
  function AnnotateEitherShape(token: Record, rugUrl: string, fetchRug: RugFetcher): (r: Result<Record>)
    ensures r.Ok? <==> DataFormater.AnalyzeTokenEitherShape(token).Ok?
    ensures r.Ok? ==> r.value == Annotated(token, DataFormater.AnalyzeTokenEitherShape(token).value,
                                           fetchRug(rugUrl, Get(token, "address", Null)))
  {
    match DataFormater.AnalyzeTokenEitherShape(token)
    case Err(e) => Err(e)
    case Ok(score) => Ok(Annotated(token, score, fetchRug(rugUrl, Get(token, "address", Null))))
  }

  function AnnotateEitherShapeStep(rugUrl: string, fetchRug: RugFetcher): Mapping
  {
    t => AnnotateEitherShape(t, rugUrl, fetchRug)
  }

  /** `dist` with the corrected scorer. */
  function DistributedEitherShape(env: map<string, string>, fetchPump: string -> seq<Record>,
                                  fetchDex: string -> seq<Record>, fetchRug: RugFetcher): Result<seq<Record>>
    requires "PUMPFUN_URL" in env && "DEX_API_URL" in env && "RUGCHECK_API_URL" in env
  {
    var standardized :- MapAll(Fetched(env, fetchPump, fetchDex), StandardizeStep(StandardizeToken));
    MapAll(standardized, AnnotateEitherShapeStep(env["RUGCHECK_API_URL"], fetchRug))
  }

  /** Every standardized pump.fun token is annotated by the corrected pass,
      with the rounded weighted sum of its raw volume, price change and
      liquidity as its upside score. */
  lemma PumpFunAnnotatedEitherShape(token: Record, rugUrl: string, fetchRug: RugFetcher)
    requires StandardizeToken(token, Str("pump.fun")).Ok?
    ensures var t := StandardizeToken(token, Str("pump.fun")).value;
      var r := AnnotateEitherShape(t, rugUrl, fetchRug);
      && r.Ok?
      && r.value["upside_score"] == Num(Scoring.Round2(Scoring.Weighted(
           AsNumber(Get(token, "volume", Num(0.0))).value,
           AsNumber(Get(token, "priceChange", Num(0.0))).value,
           AsNumber(Get(token, "liquidity", Num(0.0))).value)))
  {
    var t := StandardizeToken(token, Str("pump.fun")).value;
    PumpFunNumbers(token);
    StandardizedKeys(token, Str("pump.fun"));
    assert Scoring.FlatNumeric(t);
    assert Scoring.NumberOr0(t, "volume") == AsNumber(Get(token, "volume", Num(0.0))).value;
    assert Scoring.NumberOr0(t, "price_change") == AsNumber(Get(token, "priceChange", Num(0.0))).value;
    assert Scoring.NumberOr0(t, "liquidity") == AsNumber(Get(token, "liquidity", Num(0.0))).value;
  }

  /** The corrected pass agrees with the original wherever that one returns. */
  lemma AnnotateEitherShapeAgrees(token: Record, rugUrl: string, fetchRug: RugFetcher)
    requires Annotate(token, rugUrl, fetchRug).Ok?
    ensures AnnotateEitherShape(token, rugUrl, fetchRug) == Annotate(token, rugUrl, fetchRug)
  {
  }

  /** The correction changes nothing where `dist` already returns. */
  lemma DistributedEitherShapeAgrees(env: map<string, string>, fetchPump: string -> seq<Record>,
                                     fetchDex: string -> seq<Record>, fetchRug: RugFetcher)
    requires "PUMPFUN_URL" in env && "DEX_API_URL" in env && "RUGCHECK_API_URL" in env
    requires Distributed(env, fetchPump, fetchDex, fetchRug).Ok?
    ensures DistributedEitherShape(env, fetchPump, fetchDex, fetchRug) == Distributed(env, fetchPump, fetchDex, fetchRug)
  {
    var standardized := MapAll(Fetched(env, fetchPump, fetchDex), StandardizeStep(StandardizeToken)).value;
    var f := AnnotateStep(env["RUGCHECK_API_URL"], fetchRug);
    var g := AnnotateEitherShapeStep(env["RUGCHECK_API_URL"], fetchRug);
    forall t | f(t).Ok? ensures g(t) == f(t) {
      AnnotateEitherShapeAgrees(t, env["RUGCHECK_API_URL"], fetchRug);
    }
    MapAllAgree(standardized, f, g);
  }

  // ---------------------------------------------------------------------
  // The class

  class Distribution {
    var enviroment: map<string, string>
    var formatedTokens: seq<Record>
    var coinToken: seq<Record>
    var results: seq<Record>

    /** The field initialisation of `__init__`, before it calls `enviroments`. */
    constructor ()
      ensures enviroment == map[] && formatedTokens == [] && coinToken == [] && results == []
    {
      enviroment := map[];
      formatedTokens := [];
      coinToken := [];
      results := [];
    }

    /** The three URLs `dist` reads are stored. */
    predicate Configured()
      reads this
    {
      "PUMPFUN_URL" in enviroment && "DEX_API_URL" in enviroment && "RUGCHECK_API_URL" in enviroment
    }

    /** `enviroments()`: checks the required variables in order, storing each
        one, and raises ValueError naming the first that is unset or empty;
        the ones checked before it stay stored. */
    method Enviroments(env: map<string, string>) returns (failure: Option<Exception>)
      modifies this`enviroment
      ensures var n := FirstMissing(env, RequiredVars);
        && (failure.None? <==> n == |RequiredVars|)
        && (failure.Some? ==> failure.value == ValueError(MissingMessage(RequiredVars[n])))
        && enviroment == old(enviroment) + Loaded(env, RequiredVars[..n])
      ensures failure.None? ==> Configured() && forall v :: v in RequiredVars ==> enviroment[v] == env[v]
    {
      failure := LoadVars(env, RequiredVars);
    }

    /** The loop of `enviroments` over a list of variable names. */
    method LoadVars(env: map<string, string>, vars: seq<string>) returns (failure: Option<Exception>)
      modifies this`enviroment
      ensures var n := FirstMissing(env, vars);
        && (failure.None? <==> n == |vars|)
        && (failure.Some? ==> failure.value == ValueError(MissingMessage(vars[n])))
        && enviroment == old(enviroment) + Loaded(env, vars[..n])
      ensures failure.None? ==> forall i :: 0 <= i < |vars| ==> vars[i] in enviroment && enviroment[vars[i]] == env[vars[i]]
    {
      var i := 0;
      while i < |vars|
        invariant 0 <= i <= |vars|
        invariant forall j :: 0 <= j < i ==> IsSet(env, vars[j])
        invariant enviroment == old(enviroment) + Loaded(env, vars[..i])
      {
        var name := vars[i];
        if !IsSet(env, name) {
          FirstMissingAt(env, vars, i);
          return Some(ValueError(MissingMessage(name)));
        }
        LoadedStep(env, vars, i, old(enviroment));
        enviroment := enviroment[name := env[name]];
        i := i + 1;
      }
      assert vars[..i] == vars;
      FirstMissingAt(env, vars, i);
      LoadedAll(env, vars, old(enviroment));
      failure := None;
    }

    /** `dist()`: fetch both listings, standardize every token in order, then
        annotate the standardized records. */
    method Dist(fetchPump: string -> seq<Record>, fetchDex: string -> seq<Record>, fetchRug: RugFetcher)
      returns (r: Result<seq<Record>>)
      requires Configured()
      ensures r == Distributed(enviroment, fetchPump, fetchDex, fetchRug)
    {
      var pumpTokens := fetchPump(enviroment["PUMPFUN_URL"]);
      var dexscreenerTokens := fetchDex(enviroment["DEX_API_URL"]);
      var allTokensRaw := pumpTokens + dexscreenerTokens;
      var standardized := MapEach(allTokensRaw, StandardizeStep(StandardizeToken));
      if standardized.Err? {
        return Err(standardized.error);
      }
      r := UpdateEach(standardized.value, AnnotateStep(enviroment["RUGCHECK_API_URL"], fetchRug));
    }
  }

  /** `Distribution()`: a fresh instance whose configuration is loaded, or
      the ValueError of the first missing variable. */
  method NewDistribution(env: map<string, string>) returns (r: Result<Distribution>)
    ensures var n := FirstMissing(env, RequiredVars);
      && (r.Ok? <==> n == |RequiredVars|)
      && (r.Err? ==> r.error == ValueError(MissingMessage(RequiredVars[n])))
    ensures r.Ok? ==> fresh(r.value) && r.value.Configured()
                      && r.value.enviroment == Loaded(env, RequiredVars)
                      && r.value.results == [] && r.value.formatedTokens == [] && r.value.coinToken == []
  {
    var d := new Distribution();
    var failure := d.Enviroments(env);
    if failure.Some? {
      return Err(failure.value);
    }
    assert RequiredVars[..|RequiredVars|] == RequiredVars;
    assert map[] + Loaded(env, RequiredVars) == Loaded(env, RequiredVars);
    return Ok(d);
  }

  /** Only a configuration with all three variables set and non-empty loads. */
  lemma EmptyVariableRejected(env: map<string, string>)
    requires "DEX_API_URL" in env && env["DEX_API_URL"] != ""
    requires "PUMPFUN_URL" in env && env["PUMPFUN_URL"] == ""
    ensures FirstMissing(env, RequiredVars) == 1
    ensures MissingMessage(RequiredVars[1]) == "Missing required environment variable: PUMPFUN_URL"
  {
  }
}
