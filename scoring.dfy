/** The placeholder "AI" upside score shared by every copy of the pipeline:
    three features combined as 0.6 * price change + 0.3 * volume
    + 0.1 * liquidity, Python's `round(x, 2)` used by the package copy, and
    the flat feature extraction of the two report scripts. */
module Scoring {
  import opened Json

  /** The three features `[volume, price_change, liquidity]`, in that order,
      as the Python values they were read as. */
  datatype Features = Features(volume: Value, priceChange: Value, liquidity: Value)

  /** The weighted sum on numbers. */
  function Weighted(volume: real, priceChange: real, liquidity: real): real
  {
    0.6 * priceChange + 0.3 * volume + 0.1 * liquidity
  }

  /** `dummy_ai_score(features)` without rounding: Python multiplies each
      feature by a float, which raises TypeError unless it is a number. */
  function DummyAiScore(f: Features): (r: Result<real>)
    ensures r.Ok? <==>
      AsNumber(f.volume).Some? && AsNumber(f.priceChange).Some? && AsNumber(f.liquidity).Some?
    ensures r.Ok? ==>
      r.value == Weighted(AsNumber(f.volume).value, AsNumber(f.priceChange).value, AsNumber(f.liquidity).value)
    ensures r.Err? ==> r.error == TypeError
  {
    match (AsNumber(f.priceChange), AsNumber(f.volume), AsNumber(f.liquidity))
    case (Some(pc), Some(v), Some(l)) => Ok(pc * 0.6 + v * 0.3 + l * 0.1)
    case _ => Err(TypeError)
  }

  // ---------------------------------------------------------------------
  // round(x, 2)

  /** The whole number of hundredths `round(x, 2)` picks: the nearest one,
      and on a tie the even one. */
  function Cents(x: real): int
  {
    var y := x * 100.0;
    var n := y.Floor;
    var frac := y - n as real;
    if frac < 0.5 then n
    else if frac > 0.5 then n + 1
    else if n % 2 == 0 then n else n + 1
  }

  /** `round(x, 2)` on the exact real value of `x`. */
  function Round2(x: real): real
  {
    Cents(x) as real / 100.0
  }

  /** A value that already has at most two decimals is left as it is. */
  lemma Round2OfCents(m: int)
    ensures Round2(m as real / 100.0) == m as real / 100.0
  {
    var y := (m as real / 100.0) * 100.0;
    assert y == m as real;
    assert y.Floor == m;
  }

  lemma Round2Zero()
    ensures Round2(0.0) == 0.0
  {
    Round2OfCents(0);
    assert 0 as real / 100.0 == 0.0;
  }

  /** Rounding is idempotent. */
  lemma Round2Idempotent(x: real)
    ensures Round2(Round2(x)) == Round2(x)
  {
    Round2OfCents(Cents(x));
  }

  /** The rounded value is a closest two-decimal value: within half a
      hundredth of `x`, and no hundredth is nearer. */
  lemma Round2Nearest(x: real, m: int)
    ensures -0.005 <= Round2(x) - x <= 0.005
    ensures Abs(Round2(x) - x) <= Abs(m as real / 100.0 - x)
  {
    var y := x * 100.0;
    var n := y.Floor;
    assert n as real <= y < n as real + 1.0;
    var c := Cents(x);
    assert c == n || c == n + 1;
    assert Abs(c as real - y) <= 0.5;
    assert Abs(c as real - y) <= Abs(m as real - y) by {
      if m <= n - 1 || m >= n + 2 {
        assert Abs(m as real - y) >= 1.0;
      }
    }
    assert Round2(x) - x == (c as real - y) / 100.0;
    assert m as real / 100.0 - x == (m as real - y) / 100.0;
  }

  /** The rounded value is within half a hundredth of `x`. */
  lemma Round2Close(x: real, rounded: real)
    requires rounded == Round2(x)
    ensures -0.005 <= rounded - x <= 0.005
  {
    Round2Nearest(x, 0);
  }

  /** On an exact tie between two hundredths the even one is chosen
      (Python rounds half to even). */
  lemma Round2HalfEven(x: real)
    requires x * 100.0 - (x * 100.0).Floor as real == 0.5
    ensures Cents(x) % 2 == 0
    ensures Abs(Round2(x) - x) == 0.005
  {
    var y := x * 100.0;
    var n := y.Floor;
    assert Round2(x) - x == (Cents(x) as real - y) / 100.0;
  }

  function Abs(x: real): real { if x < 0.0 then -x else x }

  // ---------------------------------------------------------------------
  // The report scripts' flat features

  /** `extract_features` of the report scripts: the stored fields, with 0
      for a missing one. */
  function FlatFeatures(token: Record): Features
  {
    Features(Get(token, "volume", Num(0.0)), Get(token, "price_change", Num(0.0)),
             Get(token, "liquidity", Num(0.0)))
  }

  /** The number stored under `key`, 0 when the key is missing; used to
      state properties of records whose fields are known to be numbers. */
  function NumberOr0(token: Record, key: string): real
  {
    match AsNumber(Get(token, key, Num(0.0)))
    case Some(x) => x
    case None => 0.0
  }

  /** The three flat fields are numbers wherever they are present. */
  predicate FlatNumeric(token: Record)
  {
    && AsNumber(Get(token, "volume", Num(0.0))).Some?
    && AsNumber(Get(token, "price_change", Num(0.0))).Some?
    && AsNumber(Get(token, "liquidity", Num(0.0))).Some?
  }

  /** `analyze_token` of the report scripts: `dummy_ai_score(extract_features(token))`,
      unrounded; missing fields count as 0. */
  function AnalyzeFlatToken(token: Record): (r: Result<real>)
    ensures r.Ok? <==> FlatNumeric(token)
    ensures r.Ok? ==> r.value == Weighted(NumberOr0(token, "volume"),
                                          NumberOr0(token, "price_change"),
                                          NumberOr0(token, "liquidity"))
    ensures token == map[] ==> r == Ok(0.0)
  {
    var f := FlatFeatures(token);
    assert token == map[] ==> f == Features(Num(0.0), Num(0.0), Num(0.0));
    DummyAiScore(f)
  }
}
