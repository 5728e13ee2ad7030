/**
 * The transaction record shared by training and inference: the fifteen raw
 * fields, the three derived features, and the name-keyed view of a row that
 * a DataFrame gives (a column name maps to the row's value).
 */
module Transaction {
  import opened Util

  /** The fifteen raw fields, in the column order of the generated DataFrame. */
  datatype Raw = Raw(
    amount: real,
    hourOfDay: int,
    dayOfWeek: int,
    merchantCategory: int,
    numTransactions1h: int,
    numTransactions24h: int,
    avgAmount30d: real,
    distanceFromHome: real,
    isOnline: int,
    isInternational: int,
    cardPresent: int,
    daysSinceLastTxn: real,
    creditLimitUsedPct: real,
    velocityScore: real,
    geoRiskScore: real)

  /** The three engineered features. */
  datatype Derived = Derived(amountToAvgRatio: real, txnBurst: real, riskComposite: real)

  /** Both denominators of the derived features are non-zero. */
  predicate Engineerable(r: Raw) {
    r.avgAmount30d + 1.0 != 0.0 && r.numTransactions24h + 1 != 0
  }

  /**
   * The one definition of the derived features: amount over the shifted
   * 30-day average, 1h count over the shifted 24h count, and the mean of the
   * two risk scores. Training and inference must both compute exactly this.
   */
  function Engineer(r: Raw): Derived
    requires Engineerable(r)
  {
    Derived(
      r.amount / (r.avgAmount30d + 1.0),
      r.numTransactions1h as real / (r.numTransactions24h as real + 1.0),
      (r.velocityScore + r.geoRiskScore) / 2.0)
  }

  /** What each derived feature means: each one times its denominator gives back its numerator. */
  lemma EngineerMeaning(r: Raw)
    requires Engineerable(r)
    ensures Engineer(r).amountToAvgRatio * (r.avgAmount30d + 1.0) == r.amount
    ensures Engineer(r).txnBurst * (r.numTransactions24h as real + 1.0) == r.numTransactions1h as real
    ensures Engineer(r).riskComposite - r.velocityScore == r.geoRiskScore - Engineer(r).riskComposite
  {
  }

  /**
   * Under the input domains (a non-negative 30-day average, non-negative
   * counts, scores in [0, 1]) the denominators are at least 1, the composite
   * stays in [0, 1] between the two scores, the burst lies in [0, n1h], and a
   * non-negative amount is never enlarged by the ratio.
   */
  lemma EngineerBounds(r: Raw)
    requires r.avgAmount30d >= 0.0 && r.numTransactions24h >= 0 && r.numTransactions1h >= 0
    requires 0.0 <= r.velocityScore <= 1.0 && 0.0 <= r.geoRiskScore <= 1.0
    ensures Engineerable(r)
    ensures r.avgAmount30d + 1.0 >= 1.0 && r.numTransactions24h as real + 1.0 >= 1.0
    ensures 0.0 <= Engineer(r).riskComposite <= 1.0
    ensures Min(r.velocityScore, r.geoRiskScore) <= Engineer(r).riskComposite <= Max(r.velocityScore, r.geoRiskScore)
    ensures 0.0 <= Engineer(r).txnBurst <= r.numTransactions1h as real
    ensures r.amount >= 0.0 ==> 0.0 <= Engineer(r).amountToAvgRatio <= r.amount
  {
    var d := Engineer(r);
    var n1 := r.numTransactions1h as real;
    var den := r.numTransactions24h as real + 1.0;
    assert d.txnBurst * den == n1;
    assert d.txnBurst <= n1 by {
      assert d.txnBurst * den >= d.txnBurst * 1.0;
    }
    if r.amount >= 0.0 {
      var a := r.avgAmount30d + 1.0;
      assert d.amountToAvgRatio * a == r.amount;
      assert d.amountToAvgRatio * a >= d.amountToAvgRatio * 1.0;
    }
  }

  function Min(x: real, y: real): real { if x <= y then x else y }
  function Max(x: real, y: real): real { if x <= y then y else x }

  /** The raw column names, in the order the generator's DataFrame lists them. */
  const RawColumnNames: seq<string> := [
    "amount", "hour_of_day", "day_of_week", "merchant_category",
    "num_transactions_1h", "num_transactions_24h", "avg_amount_30d",
    "distance_from_home", "is_online", "is_international", "card_present",
    "days_since_last_txn", "credit_limit_used_pct", "velocity_score",
    "geo_risk_score"]

  /** The derived column names, in the order the columns are added. */
  const DerivedColumnNames: seq<string> := ["amount_to_avg_ratio", "txn_burst", "risk_composite"]

  /** A raw record seen through its column names; integer fields are widened to real. */
  function RawColumns(r: Raw): (m: map<string, real>)
    ensures m.Keys == set n | n in RawColumnNames
  {
    map[
      "amount" := r.amount,
      "hour_of_day" := r.hourOfDay as real,
      "day_of_week" := r.dayOfWeek as real,
      "merchant_category" := r.merchantCategory as real,
      "num_transactions_1h" := r.numTransactions1h as real,
      "num_transactions_24h" := r.numTransactions24h as real,
      "avg_amount_30d" := r.avgAmount30d,
      "distance_from_home" := r.distanceFromHome,
      "is_online" := r.isOnline as real,
      "is_international" := r.isInternational as real,
      "card_present" := r.cardPresent as real,
      "days_since_last_txn" := r.daysSinceLastTxn,
      "credit_limit_used_pct" := r.creditLimitUsedPct,
      "velocity_score" := r.velocityScore,
      "geo_risk_score" := r.geoRiskScore]
  }

  /** The derived features seen through their column names. */
  function DerivedColumns(d: Derived): (m: map<string, real>)
    ensures m.Keys == set n | n in DerivedColumnNames
  {
    map[
      "amount_to_avg_ratio" := d.amountToAvgRatio,
      "txn_burst" := d.txnBurst,
      "risk_composite" := d.riskComposite]
  }

  /** The full 18-column view of an engineered record. */
  function EngineeredColumns(r: Raw): (m: map<string, real>)
    requires Engineerable(r)
    ensures m.Keys == (set n | n in RawColumnNames) + (set n | n in DerivedColumnNames)
  {
    RawColumns(r) + DerivedColumns(Engineer(r))
  }

  /** In an engineered record the derived names give the derived features. */
  lemma EngineeredLookup(r: Raw)
    requires Engineerable(r)
    ensures EngineeredColumns(r)["amount_to_avg_ratio"] == Engineer(r).amountToAvgRatio
    ensures EngineeredColumns(r)["txn_burst"] == Engineer(r).txnBurst
    ensures EngineeredColumns(r)["risk_composite"] == Engineer(r).riskComposite
  {
    var d := DerivedColumns(Engineer(r));
    assert "amount_to_avg_ratio" in d && "txn_burst" in d && "risk_composite" in d;
  }

  /**
   * Selecting the columns `names` of a one-row frame, in that order
   * (`frame[names]`): either every name is present and the i-th value is the
   * row's value under names[i], or the selection fails with exactly the
   * absent names, in list order, as pandas' KeyError reports them.
   */
  function Select(rec: map<string, real>, names: seq<string>): (r: Result<seq<real>, seq<string>>)
    ensures r.Success? <==> forall i :: 0 <= i < |names| ==> names[i] in rec
    ensures r.Success? ==> |r.value| == |names| && forall i :: 0 <= i < |names| ==> r.value[i] == rec[names[i]]
    ensures r.Failure? ==> forall x :: x in r.error <==> x in names && x !in rec
  {
    if |names| == 0 then Success([])
    else
      var rest := Select(rec, names[1..]);
      if names[0] in rec then
        if rest.Success? then Success([rec[names[0]]] + rest.value) else rest
      else
        Failure([names[0]] + if rest.Failure? then rest.error else [])
  }

  /** Two rows that agree on every selected name give the same selection. */
  lemma {:induction false} SelectAgrees(a: map<string, real>, b: map<string, real>, names: seq<string>)
    requires forall i :: 0 <= i < |names| ==> (names[i] in a <==> names[i] in b)
    requires forall i :: 0 <= i < |names| && names[i] in a ==> a[names[i]] == b[names[i]]
    ensures Select(a, names) == Select(b, names)
  {
    if |names| > 0 {
      SelectAgrees(a, b, names[1..]);
    }
  }
}
