/** The steps every copy of the aggregation pipeline shares: standardizing
    the concatenated provider lists token by token, the Solana chain filter,
    collecting the rows of the tokens a per-token step keeps, and the
    ranking key. */
module Pipeline {
  import opened Json
  import opened Sorting

  /** `token.get("source", "")`: the provider tag the fetchers add. */
  function Source(token: Record): Value
  {
    Get(token, "source", Str(""))
  }

  /** A per-token step that either returns the new record or raises. */
  type Mapping = Record -> Result<Record>

  /** Applying a step to every token of a batch: one record per token, in
      input order, or the exception of the first token whose step raises. */
  function MapAll(xs: seq<Record>, f: Mapping): (r: Result<seq<Record>>)
    ensures r.Ok? <==> forall i :: 0 <= i < |xs| ==> f(xs[i]).Ok?
    ensures r.Ok? ==> |r.value| == |xs|
    ensures r.Ok? ==> forall i :: 0 <= i < |xs| ==> f(xs[i]) == Ok(r.value[i])
    ensures r.Err? ==> exists k :: 0 <= k < |xs| && f(xs[k]) == Err(r.error)
                                   && forall j :: 0 <= j < k ==> f(xs[j]).Ok?
  {
    if xs == [] then Ok([])
    else
      var n := |xs| - 1;
      assert forall i :: 0 <= i < n ==> xs[..n][i] == xs[i];
      match MapAll(xs[..n], f)
      case Err(e) => Err(e)
      case Ok(done) =>
        match f(xs[n])
        case Err(e) => Err(e)
        case Ok(t) => Ok(done + [t])
  }

  /** The first failing token decides the exception. */
  lemma FirstErrorUnique(xs: seq<Record>, f: Mapping, k: nat)
    requires k < |xs| && f(xs[k]).Err?
    requires forall j :: 0 <= j < k ==> f(xs[j]).Ok?
    ensures MapAll(xs, f) == Err(f(xs[k]).error)
  {
    var r := MapAll(xs, f);
    assert r.Err?;
    var k' :| 0 <= k' < |xs| && f(xs[k']) == Err(r.error) && forall j :: 0 <= j < k' ==> f(xs[j]).Ok?;
    assert k' == k;
  }

  /** Two steps that agree wherever the first returns give the same batch
      result wherever the first batch returns. */
  lemma MapAllAgree(xs: seq<Record>, f: Mapping, g: Mapping)
    requires MapAll(xs, f).Ok?
    requires forall t :: f(t).Ok? ==> g(t) == f(t)
    ensures MapAll(xs, g) == MapAll(xs, f)
  {
    var r := MapAll(xs, f).value;
    assert forall i :: 0 <= i < |xs| ==> g(xs[i]) == Ok(r[i]);
    var r' := MapAll(xs, g);
    assert r'.Ok? && |r'.value| == |r|;
    assert forall i :: 0 <= i < |r| ==> r'.value[i] == r[i];
  }

  /** A file's `standardize_token(token, source)`. */
  type Standardizer = (Record, Value) -> Result<Record>

  /** `self.standardize_token(token, token.get("source", ""))` */
  function StandardizeStep(standardize: Standardizer): Mapping
  {
    t => standardize(t, Source(t))
  }

  /** A loop that appends the result of a step for each token to a fresh
      list, such as `for token in all_tokens_raw: ... standardized_tokens.append(std_token)`:
      one result per token, in order, or the first exception. */
  method MapEach(xs: seq<Record>, f: Mapping) returns (r: Result<seq<Record>>)
    ensures r == MapAll(xs, f)
  {
    var results: seq<Record> := [];
    var i := 0;
    while i < |xs|
      invariant 0 <= i <= |xs|
      invariant |results| == i
      invariant forall j :: 0 <= j < i ==> f(xs[j]) == Ok(results[j])
    {
      var next := f(xs[i]);
      if next.Err? {
        FirstErrorUnique(xs, f, i);
        return Err(next.error);
      }
      results := results + [next.value];
      i := i + 1;
    }
    var spec := MapAll(xs, f);
    assert spec.Ok?;
    assert forall j :: 0 <= j < i ==> spec.value[j] == results[j];
    assert spec.value == results;
    r := Ok(results);
  }

  /** A loop `for token in tokens: token[...] = ...` that rewrites each
      record of the list in place, in order; the first record whose step
      raises stops it. */
  method UpdateEach(xs: seq<Record>, f: Mapping) returns (r: Result<seq<Record>>)
    ensures r == MapAll(xs, f)
  {
    var tokens := xs;
    var i := 0;
    while i < |tokens|
      invariant 0 <= i <= |tokens| == |xs|
      invariant forall j :: 0 <= j < i ==> f(xs[j]) == Ok(tokens[j])
      invariant forall j :: i <= j < |tokens| ==> tokens[j] == xs[j]
    {
      var updated := f(tokens[i]);
      if updated.Err? {
        FirstErrorUnique(xs, f, i);
        return Err(updated.error);
      }
      tokens := tokens[i := updated.value];
      i := i + 1;
    }
    var spec := MapAll(xs, f);
    assert spec.Ok?;
    assert forall j :: 0 <= j < |tokens| ==> spec.value[j] == tokens[j];
    assert spec.value == tokens;
    r := Ok(tokens);
  }

  /** `token.get("chain", "") in ["solana", "sol"]` */
  predicate OnSolana(token: Record)
  {
    Get(token, "chain", Str("")) == Str("solana") || Get(token, "chain", Str("")) == Str("sol")
  }

  /** `[token for token in tokens if token.get("chain", "") in ["solana", "sol"]]`:
      every Solana token with its multiplicity, and nothing else. */
  function SolanaOnly(tokens: seq<Record>): (r: seq<Record>)
    ensures |r| <= |tokens|
    ensures forall t {:trigger multiset(r)[t]} :: multiset(r)[t] == if OnSolana(t) then multiset(tokens)[t] else 0
  {
    if tokens == [] then []
    else
      var n := |tokens| - 1;
      assert tokens == tokens[..n] + [tokens[n]];
      SolanaOnly(tokens[..n]) + (if OnSolana(tokens[n]) then [tokens[n]] else [])
  }

  /** Filtering a list with one more token at its end. */
  lemma SolanaOnlySnoc(s: seq<Record>, x: Record)
    ensures SolanaOnly(s + [x]) == SolanaOnly(s) + (if OnSolana(x) then [x] else [])
  {
    assert (s + [x])[..|s|] == s;
  }

  /** One induction step of `SolanaOnlyAppend`: a token added at the end of
      the second part. */
  lemma SolanaOnlyAppendSnoc(a: seq<Record>, init: seq<Record>, x: Record)
    requires SolanaOnly(a + init) == SolanaOnly(a) + SolanaOnly(init)
    ensures SolanaOnly(a + (init + [x])) == SolanaOnly(a) + SolanaOnly(init + [x])
  {
    assert a + (init + [x]) == (a + init) + [x];
    SolanaOnlySnoc(a + init, x);
    SolanaOnlySnoc(init, x);
  }

  /** The filter keeps the input order: filtering a concatenation filters
      each part and concatenates the results. */
  lemma {:induction false} SolanaOnlyAppend(a: seq<Record>, b: seq<Record>)
    ensures SolanaOnly(a + b) == SolanaOnly(a) + SolanaOnly(b)
    decreases |b|
  {
    if b == [] {
      assert a + b == a;
    } else {
      var n := |b| - 1;
      SolanaOnlyAppend(a, b[..n]);
      SolanaOnlyAppendSnoc(a, b[..n], b[n]);
      assert b[..n] + [b[n]] == b;
    }
  }

  /** A single token is kept exactly when it is on Solana. */
  lemma SolanaOnlySingleton(t: Record)
    ensures SolanaOnly([t]) == if OnSolana(t) then [t] else []
  {
    assert [t][..0] == [];
  }

  /** A step applied to a concatenation gives the results of the first part
      followed by those of the second. */
  lemma MapAllAppend(a: seq<Record>, b: seq<Record>, f: Mapping)
    requires MapAll(a + b, f).Ok?
    ensures MapAll(a, f).Ok? && MapAll(b, f).Ok?
    ensures MapAll(a + b, f).value == MapAll(a, f).value + MapAll(b, f).value
  {
    var ab := a + b;
    assert forall i :: 0 <= i < |a| ==> ab[i] == a[i];
    assert forall i :: 0 <= i < |b| ==> ab[|a| + i] == b[i];
    var r := MapAll(ab, f).value;
    var ra := MapAll(a, f).value;
    var rb := MapAll(b, f).value;
    assert forall i :: 0 <= i < |a| ==> r[i] == ra[i];
    assert forall i :: 0 <= i < |b| ==> r[|a| + i] == rb[i];
    assert r == ra + rb;
  }

  /** What a per-token step of a report loop does with one token: raise, skip
      it (`continue`) or produce its result row. */
  type Step = Record -> Result<Option<Record>>

  /** Running a per-token step over a list and appending the rows it
      produces: the rows in input order, or the first exception. */
  function CollectAll(tokens: seq<Record>, step: Step): (r: Result<seq<Record>>)
    ensures r.Ok? <==> forall i :: 0 <= i < |tokens| ==> step(tokens[i]).Ok?
    ensures r.Ok? ==> |r.value| <= |tokens|
    ensures r.Ok? ==> forall row :: row in r.value ==>
              exists i :: 0 <= i < |tokens| && step(tokens[i]) == Ok(Some(row))
    ensures r.Ok? ==> forall i :: 0 <= i < |tokens| && step(tokens[i]).Ok? && step(tokens[i]).value.Some? ==>
              step(tokens[i]).value.value in r.value
    ensures r.Err? ==> exists k :: 0 <= k < |tokens| && step(tokens[k]) == Err(r.error)
                                   && forall j :: 0 <= j < k ==> step(tokens[j]).Ok?
  {
    if tokens == [] then Ok([])
    else
      var n := |tokens| - 1;
      var last := tokens[n];
      assert forall i :: 0 <= i < n ==> tokens[..n][i] == tokens[i];
      match CollectAll(tokens[..n], step)
      case Err(e) => Err(e)
      case Ok(rows) =>
        match step(last)
        case Err(e) => Err(e)
        case Ok(None) => Ok(rows)
        case Ok(Some(row)) => Ok(rows + [row])
  }

  /** A report loop: run the step on each token in order, `continue` on a
      skipped one, append the row of a kept one. */
  method CollectEach(tokens: seq<Record>, step: Step) returns (r: Result<seq<Record>>)
    ensures r == CollectAll(tokens, step)
  {
    var results: seq<Record> := [];
    var i := 0;
    while i < |tokens|
      invariant 0 <= i <= |tokens|
      invariant forall j :: 0 <= j < i ==> step(tokens[j]).Ok?
      invariant CollectAll(tokens[..i], step) == Ok(results)
    {
      assert tokens[..i + 1][..i] == tokens[..i];
      var outcome := step(tokens[i]);
      if outcome.Err? {
        CollectFirstErrorUnique(tokens, step, i);
        return Err(outcome.error);
      }
      if outcome.value.Some? {
        results := results + [outcome.value.value];
      }
      i := i + 1;
    }
    assert tokens[..i] == tokens;
    r := Ok(results);
  }

  /** The first token whose step raises decides the exception. */
  lemma CollectFirstErrorUnique(tokens: seq<Record>, step: Step, k: nat)
    requires k < |tokens| && step(tokens[k]).Err?
    requires forall j :: 0 <= j < k ==> step(tokens[j]).Ok?
    ensures CollectAll(tokens, step) == Err(step(tokens[k]).error)
  {
    var r := CollectAll(tokens, step);
    assert r.Err?;
    var k' :| 0 <= k' < |tokens| && step(tokens[k']) == Err(r.error)
              && forall j :: 0 <= j < k' ==> step(tokens[j]).Ok?;
    assert k' == k;
  }

  /** The loop over a list with one more token at its end: the rows so far,
      then what the step does with the last token. */
  lemma CollectAllSnoc(s: seq<Record>, x: Record, step: Step)
    ensures CollectAll(s + [x], step) == match CollectAll(s, step)
      case Err(e) => Err(e)
      case Ok(rows) => (match step(x)
        case Err(e) => Err(e)
        case Ok(None) => Ok(rows)
        case Ok(Some(row)) => Ok(rows + [row]))
  {
    assert (s + [x])[..|s|] == s;
    assert (s + [x])[|s|] == x;
  }

  /** One induction step of `CollectAllAppend`: a token added at the end of
      the second part. */
  lemma CollectAllAppendSnoc(a: seq<Record>, init: seq<Record>, x: Record, step: Step)
    requires CollectAll(a + init, step).Ok? ==>
      && CollectAll(a, step).Ok? && CollectAll(init, step).Ok?
      && CollectAll(a + init, step).value == CollectAll(a, step).value + CollectAll(init, step).value
    requires CollectAll(a + (init + [x]), step).Ok?
    ensures CollectAll(a, step).Ok? && CollectAll(init + [x], step).Ok?
    ensures CollectAll(a + (init + [x]), step).value == CollectAll(a, step).value + CollectAll(init + [x], step).value
  {
    assert a + (init + [x]) == (a + init) + [x];
    CollectAllSnoc(a + init, x, step);
    CollectAllSnoc(init, x, step);
    var ra := CollectAll(a, step).value;
    var ri := CollectAll(init, step).value;
    match step(x).value
    case None =>
    case Some(row) =>
      assert (ra + ri) + [row] == ra + (ri + [row]);
  }

  /** The rows of a concatenation are the rows of the first part followed
      by the rows of the second: the loop appends in input order. */
  lemma {:induction false} CollectAllAppend(a: seq<Record>, b: seq<Record>, step: Step)
    requires CollectAll(a + b, step).Ok?
    ensures CollectAll(a, step).Ok? && CollectAll(b, step).Ok?
    ensures CollectAll(a + b, step).value == CollectAll(a, step).value + CollectAll(b, step).value
    decreases |b|
  {
    if b == [] {
      assert a + b == a;
    } else {
      var n := |b| - 1;
      assert b[..n] + [b[n]] == b;
      assert CollectAll(a + b[..n], step).Ok? by {
        assert a + b == (a + b[..n]) + [b[n]];
        CollectAllSnoc(a + b[..n], b[n], step);
      }
      CollectAllAppend(a, b[..n], step);
      CollectAllAppendSnoc(a, b[..n], b[n], step);
    }
  }

  /** One token gives its row, nothing when the step skips it, or the
      step's exception. */
  lemma CollectAllSingleton(t: Record, step: Step)
    ensures CollectAll([t], step) == match step(t)
      case Err(e) => Err(e)
      case Ok(None) => Ok([])
      case Ok(Some(row)) => Ok([row])
  {
    CollectAllSnoc([], t, step);
    assert [] + [t] == [t];
    assert CollectAll([], step) == Ok([]);
    if step(t).Ok? && step(t).value.Some? {
      assert [] + [step(t).value.value] == [step(t).value.value];
    }
  }

  /** Sorting the collected rows by a key: the ranking is ordered, stable,
      holds only rows the step produced and every row it produced. */
  lemma RankedCollected(tokens: seq<Record>, step: Step, key: Record -> real)
    requires CollectAll(tokens, step).Ok?
    ensures var rows := CollectAll(tokens, step).value;
      var ranked := SortDesc(rows, key);
      && SortedDesc(ranked, key)
      && multiset(ranked) == multiset(rows)
      && (forall k: real :: WithKey(ranked, key, k) == WithKey(rows, key, k))
      && (forall row :: row in ranked ==>
            exists i :: 0 <= i < |tokens| && step(tokens[i]) == Ok(Some(row)))
      && (forall i :: 0 <= i < |tokens| && step(tokens[i]).Ok? && step(tokens[i]).value.Some? ==>
            step(tokens[i]).value.value in ranked)
  {
    var rows := CollectAll(tokens, step).value;
    var ranked := SortDesc(rows, key);
    SortDescSorted(rows, key);
    SortDescPermutation(rows, key);
    forall k: real ensures WithKey(ranked, key, k) == WithKey(rows, key, k) {
      SortDescStable(rows, key, k);
    }
    forall row | row in ranked ensures row in rows {
      assert multiset(ranked)[row] > 0;
    }
    forall row | row in rows ensures row in ranked {
      assert multiset(rows)[row] > 0;
    }
  }

  /** The ranking key `x["upside_score"]` of a result row. */
  function UpsideScore(row: Record): real
  {
    match Get(row, "upside_score", Null)
    case Num(x) => x
    case _ => 0.0
  }
}
