/** `is_token_suspicious`, the wash-trading filter; scripts/rugchecker.py and
    scripts/method1.py carry the same function line for line. */
module Suspicion {
  import opened Json
  import opened Scoring

  /** The fake-volume ratio threshold, the volatility threshold (percentage
      points) and the wash-trading volume threshold. */
  const MaxVolumeToLiquidity: real := 1000.0
  const MaxPriceChange: real := 200.0
  const WashVolume: real := 1000.0

  /** The three heuristics on numbers; the ratio is only formed when the
      liquidity is positive. */
  predicate Suspicious(volume: real, liquidity: real, priceChange: real)
  {
    || (liquidity > 0.0 && volume / liquidity > MaxVolumeToLiquidity)
    || Abs(priceChange) > MaxPriceChange
    || (liquidity < 1.0 && volume > WashVolume)
  }

  /** `is_token_suspicious(token)`: the rules in the order the source tests
      them, each returning True as soon as it fires. A comparison, division
      or `abs` on a field that is not a number raises TypeError, so the
      result depends on which field is reached first. */
  function IsTokenSuspicious(token: Record): (r: Result<bool>)
    ensures FlatNumeric(token) ==>
      r == Ok(Suspicious(NumberOr0(token, "volume"), NumberOr0(token, "liquidity"),
                         NumberOr0(token, "price_change")))
    ensures r.Err? ==> r.error == TypeError && !FlatNumeric(token)
  {
    var volume := AsNumber(Get(token, "volume", Num(0.0)));
    var liquidity := AsNumber(Get(token, "liquidity", Num(0.0)));
    var priceChange := AsNumber(Get(token, "price_change", Num(0.0)));
    match liquidity
    case None => Err(TypeError)
    case Some(l) =>
      if l > 0.0 && volume.None? then Err(TypeError)
      else if l > 0.0 && volume.value / l > MaxVolumeToLiquidity then Ok(true)
      else if priceChange.None? then Err(TypeError)
      else if Abs(priceChange.value) > MaxPriceChange then Ok(true)
      else if l < 1.0 && volume.None? then Err(TypeError)
      else Ok(l < 1.0 && volume.value > WashVolume)
  }

  /** For positive liquidity the ratio rule is the division-free
      `volume > 1000 * liquidity`. */
  lemma RatioRuleWithoutDivision(volume: real, liquidity: real)
    requires liquidity > 0.0
    ensures volume / liquidity > MaxVolumeToLiquidity <==> volume > MaxVolumeToLiquidity * liquidity
  {
    var q := volume / liquidity;
    assert volume == q * liquidity;
    if q > MaxVolumeToLiquidity {
      assert q * liquidity > MaxVolumeToLiquidity * liquidity;
    } else {
      assert q * liquidity <= MaxVolumeToLiquidity * liquidity;
    }
  }

  /** A clean token stays within all three bounds. */
  lemma NotSuspiciousBounds(volume: real, liquidity: real, priceChange: real)
    requires !Suspicious(volume, liquidity, priceChange)
    ensures -MaxPriceChange <= priceChange <= MaxPriceChange
    ensures liquidity > 0.0 ==> volume <= MaxVolumeToLiquidity * liquidity
    ensures liquidity < 1.0 ==> volume <= WashVolume
  {
    if liquidity > 0.0 {
      RatioRuleWithoutDivision(volume, liquidity);
    }
  }

  /** Liquidity 1 with volume 2000 (ratio 2000) is flagged; liquidity 1000
      with the same volume (ratio 2) is not. */
  lemma SuspicionExamples()
    ensures IsTokenSuspicious(map["volume" := Num(2000.0), "liquidity" := Num(1.0)]) == Ok(true)
    ensures IsTokenSuspicious(map["volume" := Num(2000.0), "liquidity" := Num(1000.0)]) == Ok(false)
    ensures IsTokenSuspicious(map["price_change" := Num(-250.0)]) == Ok(true)
    ensures IsTokenSuspicious(map["liquidity" := Str("n/a")]) == Err(TypeError)
  {
    var a: Record := map["volume" := Num(2000.0), "liquidity" := Num(1.0)];
    assert Get(a, "price_change", Num(0.0)) == Num(0.0);
    var b: Record := map["volume" := Num(2000.0), "liquidity" := Num(1000.0)];
    assert Get(b, "price_change", Num(0.0)) == Num(0.0);
    var c: Record := map["price_change" := Num(-250.0)];
    assert Get(c, "volume", Num(0.0)) == Num(0.0) && Get(c, "liquidity", Num(0.0)) == Num(0.0);
  }
}
