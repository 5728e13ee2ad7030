/**
 * The training script's dataset assembly: the fraud/legit split of N rows,
 * the two generators (as nondeterministic choice from the supports of their
 * draws), labelling, concatenation, the shuffle, the derived columns and the
 * feature list that is persisted for inference.
 */
module TrainModel {
  import opened Util
  import opened Transaction

  const N: nat := 50000
  const FRAUD_RATE: real := 0.02

  /** Python's int() on a float: truncation toward zero. */
  function Int(x: real): (r: int)
    ensures x >= 0.0 ==> r as real <= x < r as real + 1.0
    ensures x < 0.0 ==> r as real - 1.0 < x <= r as real
  {
    if x >= 0.0 then x.Floor else -((-x).Floor)
  }

  function NFraud(n: int): int { Int(n as real * FRAUD_RATE) }

  function NLegit(n: int): int { n - NFraud(n) }

  /** For n >= 0 the fraud count is n div 50, never more than n, and the two counts add up to n. */
  lemma SplitCounts(n: int)
    requires n >= 0
    ensures NFraud(n) == n / 50
    ensures 0 <= NFraud(n) <= n && 0 <= NLegit(n) <= n
    ensures NFraud(n) + NLegit(n) == n
  {
    var q, m := n / 50, n % 50;
    var x := n as real * FRAUD_RATE;
    assert n == 50 * q + m;
    assert x == q as real + m as real / 50.0;
    assert q as real <= x < q as real + 1.0;
  }

  /** The default table of 50,000 rows holds 1,000 fraud rows and 49,000 legitimate ones. */
  lemma DefaultCounts()
    ensures NFraud(N) == 1000 && NLegit(N) == 49000
  {
    SplitCounts(N);
  }

  /** The list range(lo, hi). */
  function Range(lo: int, hi: int): (r: seq<int>)
    requires lo <= hi
    ensures |r| == hi - lo
    ensures forall h :: h in r <==> lo <= h < hi
    decreases hi - lo
  {
    if lo == hi then [] else [lo] + Range(lo + 1, hi)
  }

  /** The hours np.random.choice picks from for legitimate rows: range(6, 23). */
  const LegitHours: seq<int> := Range(6, 23)

  /** The hours picked from for fraud rows: list(range(0, 6)) + list(range(22, 24)). */
  const FraudHours: seq<int> := Range(0, 6) + Range(22, 24)

  /**
   * Legitimate hours are 6..22, fraud hours are 0..5, 22 and 23; the two
   * supports overlap only at 22 and together cover the whole day.
   */
  lemma HourSupports()
    ensures forall h :: h in LegitHours <==> 6 <= h <= 22
    ensures forall h :: h in FraudHours <==> 0 <= h <= 5 || h == 22 || h == 23
    ensures forall h :: h in LegitHours && h in FraudHours <==> h == 22
    ensures forall h :: h in LegitHours || h in FraudHours <==> 0 <= h < 24
  {
  }

  /**
   * The support of every draw except the hour, which is the same for both
   * classes: amounts and averages are log-normal (positive), counts Poisson
   * (non-negative integers), distances and recency exponential
   * (non-negative), the three scores beta (in [0, 1]), day and merchant
   * uniform over range(7) and range(10), and the three flags over [0, 1].
   */
  predicate CommonSupport(r: Raw) {
    && r.amount > 0.0
    && 0 <= r.dayOfWeek < 7
    && 0 <= r.merchantCategory < 10
    && r.numTransactions1h >= 0
    && r.numTransactions24h >= 0
    && r.avgAmount30d > 0.0
    && r.distanceFromHome >= 0.0
    && r.isOnline in {0, 1}
    && r.isInternational in {0, 1}
    && r.cardPresent in {0, 1}
    && r.daysSinceLastTxn >= 0.0
    && 0.0 <= r.creditLimitUsedPct <= 1.0
    && 0.0 <= r.velocityScore <= 1.0
    && 0.0 <= r.geoRiskScore <= 1.0
  }

  predicate LegitSupport(r: Raw) { CommonSupport(r) && r.hourOfDay in LegitHours }

  predicate FraudSupport(r: Raw) { CommonSupport(r) && r.hourOfDay in FraudHours }

  /** Every generated record can be engineered: both denominators are at least 1. */
  lemma SupportIsEngineerable(r: Raw)
    requires CommonSupport(r)
    ensures Engineerable(r)
    ensures 0.0 <= Engineer(r).riskComposite <= 1.0
    ensures 0.0 <= Engineer(r).txnBurst <= r.numTransactions1h as real
    ensures 0.0 <= Engineer(r).amountToAvgRatio <= r.amount
  {
    EngineerBounds(r);
  }

  predicate Positive(x: real) { x > 0.0 }
  predicate NonNegative(x: real) { x >= 0.0 }
  predicate UnitInterval(x: real) { 0.0 <= x <= 1.0 }

  /**
   * n records, each field drawn independently from its support; the hour is
   * picked from the list `hours`. Which value a draw yields is left open.
   */
  method DrawRecords(n: nat, hours: seq<int>) returns (raws: seq<Raw>)
    requires |hours| > 0
    ensures |raws| == n
    ensures forall i :: 0 <= i < n ==> CommonSupport(raws[i]) && raws[i].hourOfDay in hours
  {
    assert Positive(1.0) && NonNegative(0.0) && UnitInterval(0.0);
    raws := [];
    while |raws| < n
      invariant |raws| <= n
      invariant forall i :: 0 <= i < |raws| ==> CommonSupport(raws[i]) && raws[i].hourOfDay in hours
    {
      var amount: real :| Positive(amount);
      var k: int :| 0 <= k < |hours|;
      var day: int :| 0 <= day < 7;
      var merchant: int :| 0 <= merchant < 10;
      var n1h: int :| n1h >= 0;
      var n24h: int :| n24h >= 0;
      var avg: real :| Positive(avg);
      var distance: real :| NonNegative(distance);
      var online: int :| online in {0, 1};
      var international: int :| international in {0, 1};
      var present: int :| present in {0, 1};
      var since: real :| NonNegative(since);
      var credit: real :| UnitInterval(credit);
      var velocity: real :| UnitInterval(velocity);
      var geo: real :| UnitInterval(geo);
      assert Positive(amount) && Positive(avg);
      assert NonNegative(distance) && NonNegative(since);
      assert UnitInterval(credit) && UnitInterval(velocity) && UnitInterval(geo);
      var r := Raw(amount, hours[k], day, merchant, n1h, n24h, avg, distance,
                   online, international, present, since, credit, velocity, geo);
      assert CommonSupport(r);
      assert r.hourOfDay in hours;
      raws := raws + [r];
    }
  }

  /** make_legit: n records from the legitimate population. */
  method MakeLegit(n: nat) returns (raws: seq<Raw>)
    ensures |raws| == n
    ensures forall i :: 0 <= i < n ==> LegitSupport(raws[i])
  {
    raws := DrawRecords(n, LegitHours);
  }

  /** make_fraud: n records from the fraud population. */
  method MakeFraud(n: nat) returns (raws: seq<Raw>)
    ensures |raws| == n
    ensures forall i :: 0 <= i < n ==> FraudSupport(raws[i])
  {
    raws := DrawRecords(n, FraudHours);
  }

  /** A DataFrame row: the fifteen raw columns plus the columns assigned later, by name. */
  datatype Row = Row(raw: Raw, extra: map<string, real>)

  /** The row's columns by name; an assigned column shadows a raw one of the same name. */
  function Columns(row: Row): map<string, real> {
    RawColumns(row.raw) + row.extra
  }

  /** The label column `is_fraud`, if it has been assigned. */
  function Label(row: Row): Option<real> {
    if "is_fraud" in row.extra then Some(row.extra["is_fraud"]) else None
  }

  /** A pandas DataFrame as the script uses it: a sequence of rows whose columns are assigned in place. */
  class Frame {
    var rows: seq<Row>

    /** pd.DataFrame over generated records: the raw columns only. */
    constructor (raws: seq<Raw>)
      ensures |rows| == |raws|
      ensures forall i :: 0 <= i < |raws| ==> rows[i] == Row(raws[i], map[])
    {
      rows := seq(|raws|, i requires 0 <= i < |raws| => Row(raws[i], map[]));
    }

    /** A frame over rows produced by concat/sample/reset_index. */
    constructor FromRows(rs: seq<Row>)
      ensures rows == rs
    {
      rows := rs;
    }

    /** df[name] = values: every row gets `name` set to its value; nothing else changes. */
    method SetColumn(name: string, values: seq<real>)
      requires |values| == |rows|
      modifies this
      ensures |rows| == |old(rows)|
      ensures forall i :: 0 <= i < |rows| ==>
        rows[i] == Row(old(rows)[i].raw, old(rows)[i].extra[name := values[i]])
    {
      var before := rows;
      rows := seq(|before|, i requires 0 <= i < |before| =>
        Row(before[i].raw, before[i].extra[name := values[i]]));
    }
  }

  /** A scalar assigned to a column is broadcast to every row. */
  function Broadcast(n: nat, v: real): (c: seq<real>)
    ensures |c| == n && forall i :: 0 <= i < n ==> c[i] == v
  {
    seq(n, _ => v)
  }

  /** df['amount'] / (df['avg_amount_30d'] + 1): the first derived feature, row by row. */
  function AmountToAvgColumn(rows: seq<Row>): (c: seq<real>)
    requires forall i :: 0 <= i < |rows| ==> Engineerable(rows[i].raw)
    ensures |c| == |rows|
    ensures forall i :: 0 <= i < |rows| ==> c[i] == Engineer(rows[i].raw).amountToAvgRatio
  {
    seq(|rows|, i requires 0 <= i < |rows| =>
      assert Engineerable(rows[i].raw); rows[i].raw.amount / (rows[i].raw.avgAmount30d + 1.0))
  }

  /** df['num_transactions_1h'] / (df['num_transactions_24h'] + 1). */
  function TxnBurstColumn(rows: seq<Row>): (c: seq<real>)
    requires forall i :: 0 <= i < |rows| ==> Engineerable(rows[i].raw)
    ensures |c| == |rows|
    ensures forall i :: 0 <= i < |rows| ==> c[i] == Engineer(rows[i].raw).txnBurst
  {
    seq(|rows|, i requires 0 <= i < |rows| =>
      assert Engineerable(rows[i].raw);
      rows[i].raw.numTransactions1h as real / (rows[i].raw.numTransactions24h as real + 1.0))
  }

  /** (df['velocity_score'] + df['geo_risk_score']) / 2. */
  function RiskCompositeColumn(rows: seq<Row>): (c: seq<real>)
    requires forall i :: 0 <= i < |rows| ==> Engineerable(rows[i].raw)
    ensures |c| == |rows|
    ensures forall i :: 0 <= i < |rows| ==> c[i] == Engineer(rows[i].raw).riskComposite
  {
    seq(|rows|, i requires 0 <= i < |rows| => (rows[i].raw.velocityScore + rows[i].raw.geoRiskScore) / 2.0)
  }

  /**
   * sample(frac=1): numpy draws a permutation of the row positions by a
   * Fisher-Yates pass from the last position down, swapping position i with
   * a position draws[i] in [0, i], and the frame is taken in that order.
   * Applying the same swaps to the rows directly gives the same table. The
   * draws stand for the seeded generator. reset_index(drop=True) only
   * renumbers, which a sequence does implicitly.
   */
  method Sample(rows: seq<Row>, draws: seq<int>) returns (shuffled: seq<Row>)
    requires |draws| == |rows|
    requires forall i :: 0 <= i < |rows| ==> 0 <= draws[i] <= i
    ensures |shuffled| == |rows|
    ensures multiset(shuffled) == multiset(rows)
  {
    shuffled := rows;
    var i := |rows|;
    while i > 1
      invariant 0 <= i <= |rows|
      invariant |shuffled| == |rows|
      invariant multiset(shuffled) == multiset(rows)
    {
      i := i - 1;
      var j := draws[i];
      SwapPreservesMultiset(shuffled, i, j);
      shuffled := shuffled[i := shuffled[j]][j := shuffled[i]];
    }
  }

  lemma SwapPreservesMultiset(s: seq<Row>, i: nat, j: nat)
    requires i < |s| && j < |s|
    ensures multiset(s[i := s[j]][j := s[i]]) == multiset(s)
  {
    var t := s[i := s[j]];
    assert multiset(t) == multiset(s) - multiset{s[i]} + multiset{s[j]};
    assert multiset(t[j := s[i]]) == multiset(t) - multiset{t[j]} + multiset{s[i]};
  }

  /** How many rows carry label l. */
  function LabelCount(rows: seq<Row>, l: real): nat {
    if |rows| == 0 then 0
    else (if Label(rows[0]) == Some(l) then 1 else 0) + LabelCount(rows[1..], l)
  }

  lemma {:induction false} LabelCountAppend(a: seq<Row>, b: seq<Row>, l: real)
    ensures LabelCount(a + b, l) == LabelCount(a, l) + LabelCount(b, l)
  {
    if |a| == 0 {
      assert a + b == b;
    } else {
      assert (a + b)[0] == a[0];
      assert (a + b)[1..] == a[1..] + b;
      LabelCountAppend(a[1..], b, l);
    }
  }

  /** A table in which every row carries label l has |rows| rows labelled l and none labelled otherwise. */
  lemma {:induction false} LabelCountUniform(rows: seq<Row>, l: real, other: real)
    requires forall i :: 0 <= i < |rows| ==> Label(rows[i]) == Some(l)
    ensures LabelCount(rows, l) == |rows|
    ensures other != l ==> LabelCount(rows, other) == 0
  {
    if |rows| > 0 {
      LabelCountUniform(rows[1..], l, other);
    }
  }

  /** Reordering rows keeps every label count. */
  lemma {:induction false} LabelCountPermutation(a: seq<Row>, b: seq<Row>, l: real)
    requires multiset(a) == multiset(b)
    ensures LabelCount(a, l) == LabelCount(b, l)
  {
    if |a| == 0 {
      assert |b| == |multiset(b)| == 0;
    } else {
      var x := a[0];
      assert x in multiset(b);
      var k :| 0 <= k < |b| && b[k] == x;
      var rest := b[..k] + b[k + 1..];
      assert b == b[..k] + [x] + b[k + 1..];
      assert a == [x] + a[1..];
      assert multiset(b) == multiset(b[..k]) + multiset{x} + multiset(b[k + 1..]);
      assert multiset(a) == multiset{x} + multiset(a[1..]);
      assert multiset(rest) == multiset(b[..k]) + multiset(b[k + 1..]);
      assert multiset(a[1..]) == multiset(a) - multiset{x};
      assert multiset(rest) == multiset(b) - multiset{x};
      LabelCountPermutation(a[1..], rest, l);
      LabelCountAppend(b[..k] + [x], b[k + 1..], l);
      LabelCountAppend(b[..k], [x], l);
      LabelCountAppend(b[..k], b[k + 1..], l);
    }
  }

  /** Row-by-row equal labels give equal counts. */
  lemma {:induction false} LabelCountPointwise(a: seq<Row>, b: seq<Row>, l: real)
    requires |a| == |b|
    requires forall i :: 0 <= i < |a| ==> Label(a[i]) == Label(b[i])
    ensures LabelCount(a, l) == LabelCount(b, l)
  {
    if |a| > 0 {
      LabelCountPointwise(a[1..], b[1..], l);
    }
  }

  /** A labelled row before the derived columns: only `is_fraud` assigned, raw values from the row's class. */
  predicate LabelledRow(row: Row) {
    || (row.extra == map["is_fraud" := 0.0] && LegitSupport(row.raw))
    || (row.extra == map["is_fraud" := 1.0] && FraudSupport(row.raw))
  }

  /**
   * A finished training row: labelled 0 with a legitimate record or 1 with
   * a fraud record, and its assigned columns are exactly the label and the
   * three derived features of its own raw values.
   */
  predicate TrainingRow(row: Row) {
    && "is_fraud" in row.extra
    && (|| (row.extra["is_fraud"] == 0.0 && LegitSupport(row.raw))
        || (row.extra["is_fraud"] == 1.0 && FraudSupport(row.raw)))
    && Engineerable(row.raw)
    && row.extra == map["is_fraud" := row.extra["is_fraud"]] + DerivedColumns(Engineer(row.raw))
  }

  /** A finished row's derived columns hold Engineer of its raw values. */
  lemma TrainingRowDerived(row: Row)
    requires TrainingRow(row)
    ensures row.extra["amount_to_avg_ratio"] == Engineer(row.raw).amountToAvgRatio
    ensures row.extra["txn_burst"] == Engineer(row.raw).txnBurst
    ensures row.extra["risk_composite"] == Engineer(row.raw).riskComposite
  {
    var d := DerivedColumns(Engineer(row.raw));
    assert "amount_to_avg_ratio" in d && "txn_burst" in d && "risk_composite" in d;
  }

  /** Legitimate rows labelled 0 followed by fraud rows labelled 1: the counts are the two lengths. */
  lemma CombinedCounts(legit: seq<Row>, fraud: seq<Row>)
    requires forall i :: 0 <= i < |legit| ==> Label(legit[i]) == Some(0.0)
    requires forall i :: 0 <= i < |fraud| ==> Label(fraud[i]) == Some(1.0)
    ensures LabelCount(legit + fraud, 0.0) == |legit| && LabelCount(legit + fraud, 1.0) == |fraud|
  {
    LabelCountAppend(legit, fraud, 0.0);
    LabelCountAppend(legit, fraud, 1.0);
    LabelCountUniform(legit, 0.0, 1.0);
    LabelCountUniform(fraud, 1.0, 0.0);
  }

  /**
   * df_legit and df_fraud built and their `is_fraud` columns assigned 0 and
   * 1, then pd.concat([df_legit, df_fraud]): legitimate rows first.
   */
  method LabelledPopulations(nLegit: nat, nFraud: nat) returns (combined: seq<Row>)
    ensures |combined| == nLegit + nFraud
    ensures LabelCount(combined, 0.0) == nLegit && LabelCount(combined, 1.0) == nFraud
    ensures forall i :: 0 <= i < |combined| ==> LabelledRow(combined[i])
  {
    var legit := MakeLegit(nLegit);
    var dfLegit := new Frame(legit);
    dfLegit.SetColumn("is_fraud", Broadcast(|legit|, 0.0));
    var legitRows := dfLegit.rows;
    assert forall i :: 0 <= i < |legitRows| ==> legitRows[i] == Row(legit[i], map["is_fraud" := 0.0]);
    var fraud := MakeFraud(nFraud);
    var dfFraud := new Frame(fraud);
    dfFraud.SetColumn("is_fraud", Broadcast(|fraud|, 1.0));
    var fraudRows := dfFraud.rows;
    assert forall i :: 0 <= i < |fraudRows| ==> fraudRows[i] == Row(fraud[i], map["is_fraud" := 1.0]);

    combined := legitRows + fraudRows;
    CombinedCounts(legitRows, fraudRows);
    forall i | 0 <= i < |combined|
      ensures LabelledRow(combined[i])
    {
      if i < |legitRows| {
        assert combined[i] == legitRows[i];
      } else {
        assert combined[i] == fraudRows[i - |legitRows|];
      }
    }
  }

  /** df['amount_to_avg_ratio'], df['txn_burst'] and df['risk_composite'] assigned one after another. */
  method AddDerivedColumns(df: Frame)
    requires forall i :: 0 <= i < |df.rows| ==> Engineerable(df.rows[i].raw)
    modifies df
    ensures |df.rows| == |old(df.rows)|
    ensures forall i :: 0 <= i < |df.rows| ==>
      df.rows[i] == Row(old(df.rows)[i].raw, old(df.rows)[i].extra + DerivedColumns(Engineer(old(df.rows)[i].raw)))
  {
    df.SetColumn("amount_to_avg_ratio", AmountToAvgColumn(df.rows));
    df.SetColumn("txn_burst", TxnBurstColumn(df.rows));
    df.SetColumn("risk_composite", RiskCompositeColumn(df.rows));
  }

  /** A labelled row with the derived columns added is a finished training row. */
  lemma FinishedRow(r: Row)
    requires LabelledRow(r)
    ensures Engineerable(r.raw)
    ensures TrainingRow(Row(r.raw, r.extra + DerivedColumns(Engineer(r.raw))))
    ensures Label(Row(r.raw, r.extra + DerivedColumns(Engineer(r.raw)))) == Label(r)
  {
    SupportIsEngineerable(r.raw);
  }

  /**
   * The script's table: draw both populations, label them 0 and 1,
   * concatenate legitimate before fraud, sample(frac=1) and reset_index,
   * then add the derived columns.
   * The table has n rows, n_legit of them labelled 0 and n_fraud labelled 1,
   * every row's raw values lie in its class's support, and every row's
   * derived columns are Engineer of its raw values.
   */
  method GenerateDataset(n: nat, shuffleDraws: seq<int>) returns (table: seq<Row>)
    requires |shuffleDraws| == n
    requires forall i :: 0 <= i < n ==> 0 <= shuffleDraws[i] <= i
    ensures |table| == n
    ensures LabelCount(table, 0.0) == NLegit(n) && LabelCount(table, 1.0) == NFraud(n)
    ensures forall i :: 0 <= i < n ==> TrainingRow(table[i])
  {
    SplitCounts(n);
    var combined := LabelledPopulations(n - NFraud(n), NFraud(n));
    var shuffled := Sample(combined, shuffleDraws);
    LabelCountPermutation(combined, shuffled, 0.0);
    LabelCountPermutation(combined, shuffled, 1.0);
    forall i | 0 <= i < |shuffled|
      ensures LabelledRow(shuffled[i]) && Engineerable(shuffled[i].raw)
    {
      assert shuffled[i] in multiset(combined);
      FinishedRow(shuffled[i]);
    }

    var df := new Frame.FromRows(shuffled);
    AddDerivedColumns(df);
    table := df.rows;

    forall i | 0 <= i < n
      ensures TrainingRow(table[i]) && Label(table[i]) == Label(shuffled[i])
    {
      FinishedRow(shuffled[i]);
    }
    LabelCountPointwise(shuffled, table, 0.0);
    LabelCountPointwise(shuffled, table, 1.0);
  }

  /** The persisted feature list: fifteen raw columns, then the three derived ones. */
  const FEATURES: seq<string> := [
    "amount", "hour_of_day", "day_of_week", "merchant_category",
    "num_transactions_1h", "num_transactions_24h", "avg_amount_30d",
    "distance_from_home", "is_online", "is_international", "card_present",
    "days_since_last_txn", "credit_limit_used_pct", "velocity_score",
    "geo_risk_score", "amount_to_avg_ratio", "txn_burst", "risk_composite"]

  /** FEATURES has 18 pairwise distinct names: the generated raw columns in order, then the derived ones. */
  lemma FeatureList()
    ensures |FEATURES| == 18
    ensures forall i, j :: 0 <= i < j < |FEATURES| ==> FEATURES[i] != FEATURES[j]
    ensures FEATURES[..15] == RawColumnNames && FEATURES[15..] == DerivedColumnNames
    ensures (set f | f in FEATURES) == (set n | n in RawColumnNames) + (set n | n in DerivedColumnNames)
  {
    assert FEATURES == RawColumnNames + DerivedColumnNames;
  }

  /**
   * X = df[FEATURES] for a finished training row: the selection succeeds and
   * is the row's engineered record read in FEATURES order; y is its label.
   */
  lemma TrainingVector(row: Row)
    requires TrainingRow(row)
    ensures Select(Columns(row), FEATURES) == Select(EngineeredColumns(row.raw), FEATURES)
    ensures Select(Columns(row), FEATURES).Success?
    ensures Label(row) == Some(0.0) || Label(row) == Some(1.0)
  {
    var l := row.extra["is_fraud"];
    var raw, derived := RawColumns(row.raw), DerivedColumns(Engineer(row.raw));
    LabelIsNotFeature();
    UnionWithKey(raw, derived, "is_fraud", l);
    SelectIgnores(EngineeredColumns(row.raw), FEATURES, "is_fraud", l);
    EngineeredHasFeatures(row.raw);
  }

  /** The label is never selected into X, and no raw or derived column shares its name. */
  lemma LabelIsNotFeature()
    ensures "is_fraud" !in FEATURES
    ensures "is_fraud" !in RawColumnNames && "is_fraud" !in DerivedColumnNames
  {
  }

  /** Every name in FEATURES is a column of an engineered record. */
  lemma EngineeredHasFeatures(r: Raw)
    requires Engineerable(r)
    ensures forall i :: 0 <= i < |FEATURES| ==> FEATURES[i] in EngineeredColumns(r)
  {
    FeatureList();
  }

  lemma UnionWithKey<K, V>(a: map<K, V>, b: map<K, V>, k: K, v: V)
    requires k !in a && k !in b
    ensures a + (map[k := v] + b) == (a + b)[k := v]
  {
  }

  /** Assigning a column that is not selected does not change the selection. */
  lemma {:induction false} SelectIgnores(rec: map<string, real>, names: seq<string>, k: string, v: real)
    requires k !in names
    ensures Select(rec[k := v], names) == Select(rec, names)
  {
    if |names| > 0 {
      SelectIgnores(rec, names[1..], k, v);
    }
  }
}
