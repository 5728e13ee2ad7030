/**
 * The dashboard's decision code: the sidebar inputs turned into the
 * 18-column record, the fraud decision, the risk tier, the rule-based risk
 * flags with their colours, and the top-10 feature-importance bars. The
 * classifier itself is outside the model: its fraud probability arrives as
 * a parameter.
 */
module App {
  import opened Util
  import opened Transaction
  import TrainModel

  /** The values the sidebar widgets hand over, with the widgets' own types. */
  datatype Sidebar = Sidebar(
    amount: real,
    hourOfDay: int,
    dayOfWeek: string,
    daysSince: real,
    merchantCat: int,
    distance: real,
    isOnline: bool,
    isIntl: bool,
    cardPresent: bool,
    numTxn1h: int,
    numTxn24h: int,
    avgAmt30d: real,
    creditPct: real,
    velocitySc: real,
    geoRiskSc: real)

  /** The day names the day selectbox offers, Monday first. */
  const DayNames: seq<string> := ["Mon", "Tue", "Wed", "Thu", "Fri", "Sat", "Sun"]

  const DowMap: map<string, int> :=
    map["Mon" := 0, "Tue" := 1, "Wed" := 2, "Thu" := 3, "Fri" := 4, "Sat" := 5, "Sun" := 6]

  /** dow_map is a bijection from the seven day names onto 0..6 that numbers them in selectbox order. */
  lemma DowMapBijection()
    ensures forall d :: d in DowMap <==> d in DayNames
    ensures forall k :: 0 <= k < |DayNames| ==> DowMap[DayNames[k]] == k
    ensures forall v :: v in DowMap.Values <==> 0 <= v < 7
    ensures forall a, b :: a in DowMap && b in DowMap && DowMap[a] == DowMap[b] ==> a == b
  {
    forall v | v in DowMap.Values
      ensures 0 <= v < 7
    {
      var d :| d in DowMap && DowMap[d] == v;
    }
    forall v | 0 <= v < 7
      ensures v in DowMap.Values
    {
      assert DowMap[DayNames[v]] == v;
    }
  }

  /** The ranges the sliders and selectboxes allow. */
  predicate InSliderDomain(s: Sidebar) {
    && 0.5 <= s.amount <= 5000.0
    && 0 <= s.hourOfDay <= 23
    && s.dayOfWeek in DayNames
    && 0.0 <= s.daysSince <= 30.0
    && 0 <= s.merchantCat < 10
    && 0.0 <= s.distance <= 1000.0
    && 0 <= s.numTxn1h <= 20
    && 0 <= s.numTxn24h <= 50
    && 1.0 <= s.avgAmt30d <= 3000.0
    && 0.0 <= s.creditPct <= 1.0
    && 0.0 <= s.velocitySc <= 1.0
    && 0.0 <= s.geoRiskSc <= 1.0
  }

  /** Python's int() on a checkbox value. */
  function BoolToInt(b: bool): int { if b then 1 else 0 }

  /** The raw transaction the sidebar describes: the day name numbered, the checkboxes as 0/1. */
  function RawOf(s: Sidebar): Raw
    requires s.dayOfWeek in DowMap
  {
    Raw(s.amount, s.hourOfDay, DowMap[s.dayOfWeek], s.merchantCat, s.numTxn1h, s.numTxn24h,
        s.avgAmt30d, s.distance, BoolToInt(s.isOnline), BoolToInt(s.isIntl), BoolToInt(s.cardPresent),
        s.daysSince, s.creditPct, s.velocitySc, s.geoRiskSc)
  }

  /** What building the record needs: a known day name and two non-zero denominators. */
  predicate Scoreable(s: Sidebar) {
    s.dayOfWeek in DowMap && s.avgAmt30d + 1.0 != 0.0 && s.numTxn24h + 1 != 0
  }

  /** Every input the sidebar can produce is scoreable. */
  lemma SliderDomainIsScoreable(s: Sidebar)
    requires InSliderDomain(s)
    ensures Scoreable(s)
    ensures s.avgAmt30d + 1.0 > 0.0 && s.numTxn24h as real + 1.0 > 0.0
  {
    DowMapBijection();
  }

  /**
   * input_data: the three derived values computed from the sidebar inputs,
   * then the 18-key record of the raw fields and the derived ones. It is
   * exactly the engineered record of the raw transaction, so inference uses
   * the training formulas.
   */
  function InputData(s: Sidebar): (rec: map<string, real>)
    requires Scoreable(s)
    ensures Engineerable(RawOf(s))
    ensures rec == EngineeredColumns(RawOf(s))
  {
    var amountToAvg := s.amount / (s.avgAmt30d + 1.0);
    var txnBurst := s.numTxn1h as real / (s.numTxn24h as real + 1.0);
    var riskComp := (s.velocitySc + s.geoRiskSc) / 2.0;
    SidebarEngineer(s);
    RawColumns(RawOf(s)) + DerivedColumns(Derived(amountToAvg, txnBurst, riskComp))
  }

  /** The three derived values of the sidebar's transaction, written in the sidebar's terms. */
  lemma SidebarEngineer(s: Sidebar)
    requires Scoreable(s)
    ensures Engineerable(RawOf(s))
    ensures Engineer(RawOf(s)) == Derived(s.amount / (s.avgAmt30d + 1.0),
      s.numTxn1h as real / (s.numTxn24h as real + 1.0), (s.velocitySc + s.geoRiskSc) / 2.0)
  {
  }

  /** The derived entries of input_data are the three formulas amount_to_avg, txn_burst and risk_comp. */
  lemma InputDataDerived(s: Sidebar)
    requires Scoreable(s)
    ensures InputData(s)["amount_to_avg_ratio"] == s.amount / (s.avgAmt30d + 1.0)
    ensures InputData(s)["txn_burst"] == s.numTxn1h as real / (s.numTxn24h as real + 1.0)
    ensures InputData(s)["risk_composite"] == (s.velocitySc + s.geoRiskSc) / 2.0
  {
    SidebarEngineer(s);
    EngineeredLookup(RawOf(s));
  }

  /** pd.DataFrame([input_data])[features]: the record read in the order of the loaded feature list. */
  function InputVector(s: Sidebar, features: seq<string>): Result<seq<real>, seq<string>>
    requires Scoreable(s)
  {
    Select(InputData(s), features)
  }

  /**
   * With the feature list training persisted, the selection always succeeds:
   * 18 values, the i-th being input_data[FEATURES[i]].
   */
  lemma InputVectorWithTrainingFeatures(s: Sidebar)
    requires Scoreable(s)
    ensures InputVector(s, TrainModel.FEATURES).Success?
    ensures |InputVector(s, TrainModel.FEATURES).value| == 18
    ensures forall i :: 0 <= i < 18 ==>
      InputVector(s, TrainModel.FEATURES).value[i] == InputData(s)[TrainModel.FEATURES[i]]
  {
    TrainModel.EngineeredHasFeatures(RawOf(s));
  }

  /** The last three entries of the vector are the derived features of the transaction. */
  lemma InputVectorDerivedTail(s: Sidebar)
    requires Scoreable(s)
    ensures InputVector(s, TrainModel.FEATURES).Success?
    ensures InputVector(s, TrainModel.FEATURES).value[15..] ==
      [Engineer(RawOf(s)).amountToAvgRatio, Engineer(RawOf(s)).txnBurst, Engineer(RawOf(s)).riskComposite]
  {
    InputVectorWithTrainingFeatures(s);
    InputDataDerived(s);
    SidebarEngineer(s);
    var f := TrainModel.FEATURES;
    assert f[15] == "amount_to_avg_ratio" && f[16] == "txn_burst" && f[17] == "risk_composite";
    var v := InputVector(s, f).value;
    assert v[15] == InputData(s)[f[15]] && v[16] == InputData(s)[f[16]] && v[17] == InputData(s)[f[17]];
    LastThree(v);
  }

  /** The day name is recorded as its number in the selectbox order. */
  lemma RecordedDay(s: Sidebar)
    requires Scoreable(s)
    ensures InputData(s)["day_of_week"] == DowMap[s.dayOfWeek] as real
  {
    var raw := RawColumns(RawOf(s));
    assert raw["day_of_week"] == DowMap[s.dayOfWeek] as real;
    assert "day_of_week" !in DerivedColumns(Engineer(RawOf(s)));
  }

  /**
   * The derived features of the worked example: amount 120, 30-day average 85,
   * one transaction in the hour and four in the day, velocity score 0.1 and
   * geo-risk score 0.05, on a Tuesday.
   */
  lemma ExampleDerived(s: Sidebar)
    requires s.dayOfWeek == "Tue" && s.amount == 120.0 && s.avgAmt30d == 85.0
    requires s.numTxn1h == 1 && s.numTxn24h == 4 && s.velocitySc == 0.1 && s.geoRiskSc == 0.05
    ensures Scoreable(s) && DowMap[s.dayOfWeek] == 1
    ensures Engineer(RawOf(s)) == Derived(120.0 / 86.0, 0.2, 0.075)
  {
    assert s.dayOfWeek in DowMap && DowMap[s.dayOfWeek] == 1;
    SidebarEngineer(s);
  }

  /**
   * A Tuesday purchase of 120 against a 30-day average of 85, one transaction
   * in the last hour and four in the last day, scores 0.1 and 0.05: it is
   * recorded with day 1, and its vector ends with the ratio 120/86, the burst
   * 1/5 and the composite 0.075.
   */
  lemma ExampleVector(s: Sidebar)
    requires s.dayOfWeek == "Tue" && s.amount == 120.0 && s.avgAmt30d == 85.0
    requires s.numTxn1h == 1 && s.numTxn24h == 4 && s.velocitySc == 0.1 && s.geoRiskSc == 0.05
    ensures Scoreable(s)
    ensures InputData(s)["day_of_week"] == 1.0
    ensures InputVector(s, TrainModel.FEATURES).Success?
    ensures InputVector(s, TrainModel.FEATURES).value[15..] == [120.0 / 86.0, 0.2, 0.075]
  {
    ExampleDerived(s);
    RecordedDay(s);
    InputVectorDerivedTail(s);
  }

  /** The last three entries of an 18-entry vector. */
  lemma LastThree(v: seq<real>)
    requires |v| == 18
    ensures v[15..] == [v[15], v[16], v[17]]
  {
  }

  /** A record keyed by exactly the 18 feature names. */
  lemma InputDataKeys(s: Sidebar)
    requires Scoreable(s)
    ensures forall k :: k in InputData(s) <==> k in TrainModel.FEATURES
  {
    TrainModel.FeatureList();
  }

  /** prediction = int(prob_fraud > 0.5). */
  function Prediction(probFraud: real): int {
    if probFraud > 0.5 then 1 else 0
  }

  /** The decision is a strict threshold at one half: 0.5 itself is not fraud. */
  lemma DecisionRule(p: real)
    ensures Prediction(p) == 0 || Prediction(p) == 1
    ensures Prediction(p) == 1 <==> p > 0.5
    ensures Prediction(0.5) == 0 && Prediction(0.5000001) == 1
  {
  }

  datatype Tier = Low | Moderate | High | Critical {
    /** The label shown for the tier. */
    function Name(): string {
      match this
      case Low => "LOW"
      case Moderate => "MODERATE"
      case High => "HIGH"
      case Critical => "CRITICAL"
    }

    /** risk_color, assigned together with the tier. */
    function Colour(): string {
      match this
      case Low => "#10b981"
      case Moderate => "#f59e0b"
      case High => "#ef4444"
      case Critical => "#dc2626"
    }

    /** The order LOW < MODERATE < HIGH < CRITICAL. */
    function Rank(): nat {
      match this
      case Low => 0
      case Moderate => 1
      case High => 2
      case Critical => 3
    }
  }

  /** The risk-tier if/elif chain. */
  function RiskTier(probFraud: real): Tier {
    if probFraud < 0.2 then Low
    else if probFraud < 0.5 then Moderate
    else if probFraud < 0.8 then High
    else Critical
  }

  /** The tiers partition the probabilities into half-open intervals closed below. */
  lemma TierPartition(p: real)
    ensures RiskTier(p) == Low <==> p < 0.2
    ensures RiskTier(p) == Moderate <==> 0.2 <= p < 0.5
    ensures RiskTier(p) == High <==> 0.5 <= p < 0.8
    ensures RiskTier(p) == Critical <==> p >= 0.8
    ensures RiskTier(0.2) == Moderate && RiskTier(0.1999) == Low
  {
  }

  /** A higher probability never gives a lower tier. */
  lemma TierMonotone(p: real, q: real)
    requires p <= q
    ensures RiskTier(p).Rank() <= RiskTier(q).Rank()
  {
  }

  /**
   * A fraud decision always comes with tier HIGH or CRITICAL, and tiers LOW
   * and MODERATE always come with a legitimate decision; the converse fails
   * at 0.5, which is tier HIGH but not fraud.
   */
  lemma DecisionVersusTier(p: real)
    ensures Prediction(p) == 1 ==> RiskTier(p) == High || RiskTier(p) == Critical
    ensures RiskTier(p) == Low || RiskTier(p) == Moderate ==> Prediction(p) == 0
    ensures RiskTier(0.5) == High && Prediction(0.5) == 0
  {
  }

  /** Each branch of the chain assigns risk_tier and risk_color together; the four names are distinct. */
  lemma TierDisplay(p: real)
    ensures p < 0.2 ==> RiskTier(p).Name() == "LOW" && RiskTier(p).Colour() == "#10b981"
    ensures 0.2 <= p < 0.5 ==> RiskTier(p).Name() == "MODERATE" && RiskTier(p).Colour() == "#f59e0b"
    ensures 0.5 <= p < 0.8 ==> RiskTier(p).Name() == "HIGH" && RiskTier(p).Colour() == "#ef4444"
    ensures p >= 0.8 ==> RiskTier(p).Name() == "CRITICAL" && RiskTier(p).Colour() == "#dc2626"
    ensures forall t: Tier, u: Tier :: t.Name() == u.Name() ==> t == u
  {
  }

  /**
   * The LOW, MODERATE and HIGH tier colours are the risk-factor colours of
   * the levels LOW, MED and HIGH; CRITICAL has a colour of its own.
   */
  lemma TierColoursMatchLevels()
    ensures Low.Colour() == LevelColours["LOW"]
    ensures Moderate.Colour() == LevelColours["MED"]
    ensures High.Colour() == LevelColours["HIGH"]
    ensures Critical.Colour() !in LevelColours.Values
  {
    forall v | v in LevelColours.Values
      ensures v != Critical.Colour()
    {
      var level :| level in LevelColours && LevelColours[level] == v;
    }
  }

  /** What a risk flag reports; the formatted numbers are carried as values. */
  datatype Indicator =
    | AmountAboveAverage
    | UnusualHour
    | International
    | FarFromHome(km: real)
    | VelocityBurst(count: int)
    | HighVelocityScore(score: real)
    | HighGeoRisk(score: real)
    | NearCreditLimit(usedFraction: real)
    | NoIndicators

  /** The position of an indicator's rule in the guard chain; the LOW entry comes last. */
  function Position(ind: Indicator): nat {
    match ind
    case AmountAboveAverage => 0
    case UnusualHour => 1
    case International => 2
    case FarFromHome(_) => 3
    case VelocityBurst(_) => 4
    case HighVelocityScore(_) => 5
    case HighGeoRisk(_) => 6
    case NearCreditLimit(_) => 7
    case NoIndicators => 8
  }

  datatype Flag = Flag(level: string, indicator: Indicator)

  /** The eight guarded rules, each its condition and the flag it appends, in source order. */
  function Rules(s: Sidebar): seq<(bool, Flag)> {
    [ (s.amount > s.avgAmt30d * 2.0, Flag("HIGH", AmountAboveAverage)),
      (s.hourOfDay < 6, Flag("MED", UnusualHour)),
      (s.isIntl, Flag("MED", International)),
      (s.distance > 200.0, Flag("HIGH", FarFromHome(s.distance))),
      (s.numTxn1h > 5, Flag("HIGH", VelocityBurst(s.numTxn1h))),
      (s.velocitySc > 0.7, Flag("HIGH", HighVelocityScore(s.velocitySc))),
      (s.geoRiskSc > 0.7, Flag("HIGH", HighGeoRisk(s.geoRiskSc))),
      (s.creditPct > 0.85, Flag("MED", NearCreditLimit(s.creditPct))) ]
  }

  /** The flags of the rules whose condition holds, in rule order. */
  function Kept(rules: seq<(bool, Flag)>): seq<Flag> {
    if |rules| == 0 then []
    else (if rules[0].0 then [rules[0].1] else []) + Kept(rules[1..])
  }

  /** The flag list: the kept rules when the decision is fraud, otherwise the single LOW entry. */
  function RiskFlags(probFraud: real, s: Sidebar): seq<Flag> {
    if probFraud > 0.5 then Kept(Rules(s)) else [Flag("LOW", NoIndicators)]
  }

  /** The flag builder: each guard of the chain appends its flag to `flags` or nothing. */
  method BuildFlags(probFraud: real, s: Sidebar) returns (flags: seq<Flag>)
    ensures flags == RiskFlags(probFraud, s)
  {
    flags := [];
    if probFraud > 0.5 {
      ghost var r := Rules(s);
      RulesAt(s);
      assert r[..0] == [];
      flags := flags + (if s.amount > s.avgAmt30d * 2.0 then [Flag("HIGH", AmountAboveAverage)] else []);
      Step(r, 0, flags, [], s.amount > s.avgAmt30d * 2.0, Flag("HIGH", AmountAboveAverage));
      ghost var f1 := flags;
      flags := flags + (if s.hourOfDay < 6 then [Flag("MED", UnusualHour)] else []);
      Step(r, 1, flags, f1, s.hourOfDay < 6, Flag("MED", UnusualHour));
      ghost var f2 := flags;
      flags := flags + (if s.isIntl then [Flag("MED", International)] else []);
      Step(r, 2, flags, f2, s.isIntl, Flag("MED", International));
      ghost var f3 := flags;
      flags := flags + (if s.distance > 200.0 then [Flag("HIGH", FarFromHome(s.distance))] else []);
      Step(r, 3, flags, f3, s.distance > 200.0, Flag("HIGH", FarFromHome(s.distance)));
      ghost var f4 := flags;
      flags := flags + (if s.numTxn1h > 5 then [Flag("HIGH", VelocityBurst(s.numTxn1h))] else []);
      Step(r, 4, flags, f4, s.numTxn1h > 5, Flag("HIGH", VelocityBurst(s.numTxn1h)));
      ghost var f5 := flags;
      flags := flags + (if s.velocitySc > 0.7 then [Flag("HIGH", HighVelocityScore(s.velocitySc))] else []);
      Step(r, 5, flags, f5, s.velocitySc > 0.7, Flag("HIGH", HighVelocityScore(s.velocitySc)));
      ghost var f6 := flags;
      flags := flags + (if s.geoRiskSc > 0.7 then [Flag("HIGH", HighGeoRisk(s.geoRiskSc))] else []);
      Step(r, 6, flags, f6, s.geoRiskSc > 0.7, Flag("HIGH", HighGeoRisk(s.geoRiskSc)));
      ghost var f7 := flags;
      flags := flags + (if s.creditPct > 0.85 then [Flag("MED", NearCreditLimit(s.creditPct))] else []);
      Step(r, 7, flags, f7, s.creditPct > 0.85, Flag("MED", NearCreditLimit(s.creditPct)));
      assert r[..8] == r;
    } else {
      flags := flags + [Flag("LOW", NoIndicators)];
    }
  }

  /** The eight rules, one by one. */
  lemma RulesAt(s: Sidebar)
    ensures |Rules(s)| == 8
    ensures Rules(s)[0] == (s.amount > s.avgAmt30d * 2.0, Flag("HIGH", AmountAboveAverage))
    ensures Rules(s)[1] == (s.hourOfDay < 6, Flag("MED", UnusualHour))
    ensures Rules(s)[2] == (s.isIntl, Flag("MED", International))
    ensures Rules(s)[3] == (s.distance > 200.0, Flag("HIGH", FarFromHome(s.distance)))
    ensures Rules(s)[4] == (s.numTxn1h > 5, Flag("HIGH", VelocityBurst(s.numTxn1h)))
    ensures Rules(s)[5] == (s.velocitySc > 0.7, Flag("HIGH", HighVelocityScore(s.velocitySc)))
    ensures Rules(s)[6] == (s.geoRiskSc > 0.7, Flag("HIGH", HighGeoRisk(s.geoRiskSc)))
    ensures Rules(s)[7] == (s.creditPct > 0.85, Flag("MED", NearCreditLimit(s.creditPct)))
  {
  }

  /** One guard of the chain: if `now` extends `before` by rule k's flag exactly when it fires, it is Kept of one more rule. */
  lemma Step(rules: seq<(bool, Flag)>, k: nat, now: seq<Flag>, before: seq<Flag>, fires: bool, flag: Flag)
    requires k < |rules| && rules[k] == (fires, flag)
    requires before == Kept(rules[..k])
    requires now == before + (if fires then [flag] else [])
    ensures now == Kept(rules[..k + 1])
  {
    KeptStep(rules, k);
  }

  lemma {:induction false} KeptAppend(a: seq<(bool, Flag)>, b: seq<(bool, Flag)>)
    ensures Kept(a + b) == Kept(a) + Kept(b)
  {
    if |a| == 0 {
      assert a + b == b;
    } else {
      var head := if a[0].0 then [a[0].1] else [];
      assert (a + b)[0] == a[0];
      assert (a + b)[1..] == a[1..] + b;
      assert Kept(a) == head + Kept(a[1..]);
      assert Kept(a + b) == head + Kept(a[1..] + b);
      KeptAppend(a[1..], b);
      assert head + (Kept(a[1..]) + Kept(b)) == (head + Kept(a[1..])) + Kept(b);
    }
  }

  /** Keeping one more rule of a prefix appends that rule's flag exactly when its condition holds. */
  lemma KeptStep(rules: seq<(bool, Flag)>, k: nat)
    requires k < |rules|
    ensures Kept(rules[..k + 1]) == Kept(rules[..k]) + (if rules[k].0 then [rules[k].1] else [])
  {
    assert rules[..k + 1] == rules[..k] + [rules[k]];
    KeptAppend(rules[..k], [rules[k]]);
    assert Kept([rules[k]]) == (if rules[k].0 then [rules[k].1] else []) + Kept([]);
  }

  /** Kept keeps exactly the flags of the rules whose condition holds. */
  lemma {:induction false} KeptMembership(rules: seq<(bool, Flag)>, f: Flag)
    ensures f in Kept(rules) <==> exists k :: 0 <= k < |rules| && rules[k].0 && rules[k].1 == f
  {
    if |rules| > 0 {
      KeptMembership(rules[1..], f);
      if f in Kept(rules[1..]) {
        var k :| 0 <= k < |rules[1..]| && rules[1..][k].0 && rules[1..][k].1 == f;
        assert rules[k + 1].0 && rules[k + 1].1 == f;
      }
      if exists k :: 0 <= k < |rules| && rules[k].0 && rules[k].1 == f {
        var k :| 0 <= k < |rules| && rules[k].0 && rules[k].1 == f;
        if k > 0 { assert rules[1..][k - 1] == rules[k]; }
      }
    }
  }

  /** Kept never lengthens the rule list and, over rules in increasing position, yields flags in increasing position. */
  lemma {:induction false} KeptOrdered(rules: seq<(bool, Flag)>, bound: int)
    requires forall i, j :: 0 <= i < j < |rules| ==> Position(rules[i].1.indicator) < Position(rules[j].1.indicator)
    requires forall i :: 0 <= i < |rules| ==> bound < Position(rules[i].1.indicator)
    ensures |Kept(rules)| <= |rules|
    ensures forall i, j :: 0 <= i < j < |Kept(rules)| ==>
      Position(Kept(rules)[i].indicator) < Position(Kept(rules)[j].indicator)
    ensures forall i :: 0 <= i < |Kept(rules)| ==> bound < Position(Kept(rules)[i].indicator)
  {
    if |rules| > 0 {
      var p := Position(rules[0].1.indicator);
      KeptOrdered(rules[1..], p);
      KeptOrdered(rules[1..], bound);
    }
  }

  /** When the decision is legitimate, the list is exactly the one LOW entry. */
  lemma FlagsWhenLegitimate(p: real, s: Sidebar)
    requires p <= 0.5
    ensures RiskFlags(p, s) == [Flag("LOW", NoIndicators)]
  {
  }

  /**
   * When the decision is fraud: at most eight flags, each HIGH or MED, a flag
   * present exactly when it is the flag of a rule whose condition holds, and
   * the flags in the order of the guard chain (the list may be empty).
   */
  lemma FlagsWhenFraud(p: real, s: Sidebar)
    requires p > 0.5
    ensures |RiskFlags(p, s)| <= 8
    ensures forall f :: f in RiskFlags(p, s) ==> f.level == "HIGH" || f.level == "MED"
    ensures forall k :: 0 <= k < 8 ==> (Rules(s)[k].1 in RiskFlags(p, s) <==> Rules(s)[k].0)
    ensures forall f :: f in RiskFlags(p, s) <==> exists k :: 0 <= k < 8 && Rules(s)[k].0 && Rules(s)[k].1 == f
    ensures forall i, j :: 0 <= i < j < |RiskFlags(p, s)| ==>
      Position(RiskFlags(p, s)[i].indicator) < Position(RiskFlags(p, s)[j].indicator)
  {
    var r := Rules(s);
    KeptOrdered(r, -1);
    forall f | f in Kept(r)
      ensures f.level == "HIGH" || f.level == "MED"
    {
      KeptMembership(r, f);
    }
    forall f
      ensures f in Kept(r) <==> exists k :: 0 <= k < 8 && r[k].0 && r[k].1 == f
    {
      KeptMembership(r, f);
    }
    forall k | 0 <= k < 8
      ensures r[k].1 in Kept(r) <==> r[k].0
    {
      KeptMembership(r, r[k].1);
      if r[k].1 in Kept(r) {
        var k' :| 0 <= k' < |r| && r[k'].0 && r[k'].1 == r[k].1;
        assert Position(r[k'].1.indicator) == Position(r[k].1.indicator);
      }
    }
  }

  /** The level-to-colour lookup of the risk-factor rows. */
  const LevelColours: map<string, string> := map["HIGH" := "#ef4444", "MED" := "#f59e0b", "LOW" := "#10b981"]

  /** Every level the flag builder emits is a key of the colour map, so the lookup never raises. */
  lemma ColourLookupTotal(p: real, s: Sidebar)
    ensures forall f :: f in RiskFlags(p, s) ==> f.level in LevelColours
  {
    if p > 0.5 {
      FlagsWhenFraud(p, s);
    }
  }

  /** One rendered risk-factor row: its level, the colour looked up for it and what it reports. */
  datatype FactorRow = FactorRow(level: string, colour: string, indicator: Indicator)

  /**
   * The risk-factor loop: one row per flag, its colour looked up by level.
   * A level missing from the colour map raises KeyError at the first such
   * flag, which the Failure carries.
   */
  method RenderRows(flags: seq<Flag>) returns (result: Result<seq<FactorRow>, string>)
    ensures result.Success? <==> forall i :: 0 <= i < |flags| ==> flags[i].level in LevelColours
    ensures result.Success? ==> |result.value| == |flags| && forall i :: 0 <= i < |flags| ==>
      result.value[i] == FactorRow(flags[i].level, LevelColours[flags[i].level], flags[i].indicator)
    ensures result.Failure? ==> exists k :: (0 <= k < |flags| && result.error == flags[k].level &&
      flags[k].level !in LevelColours && forall i :: 0 <= i < k ==> flags[i].level in LevelColours)
  {
    var rows: seq<FactorRow> := [];
    var i := 0;
    while i < |flags|
      invariant 0 <= i <= |flags| && |rows| == i
      invariant forall k :: 0 <= k < i ==> flags[k].level in LevelColours
      invariant forall k :: 0 <= k < i ==>
        rows[k] == FactorRow(flags[k].level, LevelColours[flags[k].level], flags[k].indicator)
    {
      var level := flags[i].level;
      if level !in LevelColours {
        return Failure(level);
      }
      rows := rows + [FactorRow(level, LevelColours[level], flags[i].indicator)];
      i := i + 1;
    }
    return Success(rows);
  }

  /**
   * The risk-factor analysis as the dashboard runs it: build the flags, then
   * render them; rendering never fails, and every row carries its flag's
   * level with that level's colour.
   */
  method RiskFactorTable(probFraud: real, s: Sidebar) returns (rows: seq<FactorRow>)
    ensures |rows| == |RiskFlags(probFraud, s)|
    ensures forall i :: 0 <= i < |rows| ==>
      && rows[i].level == RiskFlags(probFraud, s)[i].level
      && rows[i].indicator == RiskFlags(probFraud, s)[i].indicator
      && rows[i].level in LevelColours
      && rows[i].colour == LevelColours[rows[i].level]
  {
    var flags := BuildFlags(probFraud, s);
    ColourLookupTotal(probFraud, s);
    var rendered := RenderRows(flags);
    rows := rendered.value;
  }

  /** One feature of the importance Series. */
  datatype Importance = Importance(feature: string, weight: real)

  /** pd.Series(importances, index=features). */
  function Series(weights: seq<real>, names: seq<string>): (s: seq<Importance>)
    requires |weights| == |names|
  {
    seq(|weights|, i requires 0 <= i < |weights| => Importance(names[i], weights[i]))
  }

  predicate SortedDesc(s: seq<Importance>) {
    forall i, j :: 0 <= i < j < |s| ==> s[i].weight >= s[j].weight
  }

  /** Inserting into a descending list: before the first entry it is not below. */
  function InsertDesc(x: Importance, s: seq<Importance>): (r: seq<Importance>)
    requires SortedDesc(s)
    ensures |r| == |s| + 1
    ensures multiset(r) == multiset(s) + multiset{x}
    ensures SortedDesc(r)
    ensures r[0] == x || (|s| > 0 && r[0] == s[0])
  {
    if |s| == 0 then [x]
    else if x.weight >= s[0].weight then [x] + s
    else
      assert s == [s[0]] + s[1..];
      var t := InsertDesc(x, s[1..]);
      assert s[0].weight >= t[0].weight;
      ConsSorted(s[0], t);
      [s[0]] + t
  }

  /** A descending list stays descending under a first entry not below its head. */
  lemma ConsSorted(h: Importance, t: seq<Importance>)
    requires SortedDesc(t) && |t| > 0 && h.weight >= t[0].weight
    ensures SortedDesc([h] + t)
  {
    var r := [h] + t;
    forall i, j | 0 <= i < j < |r|
      ensures r[i].weight >= r[j].weight
    {
      if i == 0 {
        assert r[j] == t[j - 1];
        assert t[0].weight >= t[j - 1].weight || j - 1 == 0;
      } else {
        assert r[i] == t[i - 1] && r[j] == t[j - 1];
      }
    }
  }

  /** sort_values(ascending=False): a descending rearrangement of the Series. */
  function SortValues(s: seq<Importance>): (r: seq<Importance>)
    ensures SortedDesc(r)
    ensures multiset(r) == multiset(s)
    ensures |r| == |s|
  {
    if |s| == 0 then []
    else
      assert s == [s[0]] + s[1..];
      InsertDesc(s[0], SortValues(s[1..]))
  }

  /** fi.max(): a weight of the Series that no weight exceeds. */
  function MaxWeight(s: seq<Importance>): (m: real)
    requires |s| > 0
    ensures forall i :: 0 <= i < |s| ==> s[i].weight <= m
    ensures exists i :: 0 <= i < |s| && s[i].weight == m
  {
    if |s| == 1 then s[0].weight
    else
      var rest := MaxWeight(s[1..]);
      assert forall i :: 1 <= i < |s| ==> s[i] == s[1..][i - 1];
      if s[0].weight >= rest then s[0].weight else rest
  }

  /** The first entry of a descending Series is its maximum. */
  lemma SortedMaxIsFirst(s: seq<Importance>)
    requires |s| > 0 && SortedDesc(s)
    ensures MaxWeight(s) == s[0].weight
  {
  }

  /**
   * val / max_fi * 100 as a bar width; None stands for the NaN or infinity
   * that float division by a zero maximum gives.
   */
  function Percent(v: real, m: real): Option<real> {
    if m == 0.0 then None else Some(v / m * 100.0)
  }

  /** A weight between 0 and a positive maximum gives a width in [0, 100]; the maximum itself gives 100. */
  lemma PercentBounds(v: real, m: real)
    requires 0.0 <= v <= m && m > 0.0
    ensures Percent(v, m).Some? && 0.0 <= Percent(v, m).value <= 100.0
    ensures Percent(m, m) == Some(100.0)
  {
    assert v / m <= 1.0 by {
      assert v / m * m == v;
    }
    assert m / m == 1.0;
  }

  /** With non-negative weights and a positive maximum every width is defined and in [0, 100]. */
  lemma BarWidths(fi: seq<Importance>)
    requires |fi| > 0 && MaxWeight(fi) > 0.0
    requires forall i :: 0 <= i < |fi| ==> fi[i].weight >= 0.0
    ensures forall i :: 0 <= i < |fi| ==>
      Percent(fi[i].weight, MaxWeight(fi)).Some? && 0.0 <= Percent(fi[i].weight, MaxWeight(fi)).value <= 100.0
  {
    forall i | 0 <= i < |fi|
      ensures Percent(fi[i].weight, MaxWeight(fi)).Some? && 0.0 <= Percent(fi[i].weight, MaxWeight(fi)).value <= 100.0
    {
      PercentBounds(fi[i].weight, MaxWeight(fi));
    }
  }

  /** In a descending Series with a positive maximum the first width is 100. */
  lemma TopBarWidth(fi: seq<Importance>)
    requires |fi| > 0 && SortedDesc(fi) && MaxWeight(fi) > 0.0
    ensures Percent(fi[0].weight, MaxWeight(fi)) == Some(100.0)
  {
    SortedMaxIsFirst(fi);
    PercentBounds(fi[0].weight, MaxWeight(fi));
  }

  /** label_map: the display name of each feature. */
  const LabelMap: map<string, string> := map[
    "risk_composite" := "Risk Composite", "geo_risk_score" := "Geo Risk Score",
    "velocity_score" := "Velocity Score", "credit_limit_used_pct" := "Credit Limit Used",
    "num_transactions_24h" := "Txns 24h", "hour_of_day" := "Hour of Day",
    "distance_from_home" := "Distance Home", "num_transactions_1h" := "Txns 1h",
    "amount_to_avg_ratio" := "Amt/Avg Ratio", "amount" := "Amount",
    "is_international" := "Is International", "avg_amount_30d" := "Avg Amt 30d",
    "days_since_last_txn" := "Days Since Txn", "txn_burst" := "Txn Burst",
    "day_of_week" := "Day of Week", "is_online" := "Is Online",
    "card_present" := "Card Present", "merchant_category" := "Merchant Cat"]

  /** labels.get(feat, feat): the display name, or the feature itself when it has none. */
  function DisplayName(labels: map<string, string>, feature: string): string {
    if feature in labels then labels[feature] else feature
  }

  /** label_map names exactly the persisted features, so no bar falls back to the raw name. */
  lemma LabelMapCoversFeatures()
    ensures forall f :: f in LabelMap <==> f in TrainModel.FEATURES
  {
  }

  /** One importance bar: display name, weight and width in percent. */
  datatype Bar = Bar(name: string, weight: real, pct: Option<real>)

  /** How many entries fi.head(10) takes from a Series of n: all of them, at most ten. */
  function HeadLength(n: nat): nat { if n <= 10 then n else 10 }

  /**
   * The bar loop over fi.head(10): one bar per entry, named through the
   * label map, each width the entry's weight relative to the maximum of the
   * whole Series.
   */
  method ImportanceBars(fi: seq<Importance>, labels: map<string, string>) returns (bars: seq<Bar>)
    ensures |bars| == HeadLength(|fi|)
    ensures forall i :: 0 <= i < |bars| ==>
      bars[i] == Bar(DisplayName(labels, fi[i].feature), fi[i].weight, Percent(fi[i].weight, MaxWeight(fi)))
    ensures (forall i :: 0 <= i < |fi| ==> fi[i].weight >= 0.0) && |fi| > 0 && MaxWeight(fi) > 0.0 ==>
      forall i :: 0 <= i < |bars| ==> bars[i].pct.Some? && 0.0 <= bars[i].pct.value <= 100.0
    ensures SortedDesc(fi) && |fi| > 0 && MaxWeight(fi) > 0.0 ==> bars[0].pct == Some(100.0)
  {
    bars := [];
    if |fi| == 0 {
      return;
    }
    var maxFi := MaxWeight(fi);
    var top := HeadLength(|fi|);
    var i := 0;
    while i < top
      invariant 0 <= i <= top && |bars| == i
      invariant forall k :: 0 <= k < i ==>
        bars[k] == Bar(DisplayName(labels, fi[k].feature), fi[k].weight, Percent(fi[k].weight, maxFi))
    {
      var pct := Percent(fi[i].weight, maxFi);
      bars := bars + [Bar(DisplayName(labels, fi[i].feature), fi[i].weight, pct)];
      i := i + 1;
    }
    if (forall k :: 0 <= k < |fi| ==> fi[k].weight >= 0.0) && maxFi > 0.0 {
      BarWidths(fi);
    }
    if SortedDesc(fi) && maxFi > 0.0 {
      TopBarWidth(fi);
    }
  }

  /** A Series holding an entry of positive weight has a positive maximum. */
  lemma PositiveMax(fi: seq<Importance>, e: Importance)
    requires e in multiset(fi) && e.weight > 0.0
    ensures |fi| > 0 && MaxWeight(fi) > 0.0
  {
    var k :| 0 <= k < |fi| && fi[k] == e;
  }

  /** Sorting keeps the weights: non-negative importances one of which is positive stay so. */
  lemma SortedSeriesWeights(importances: seq<real>, features: seq<string>)
    requires |importances| == |features|
    requires forall i :: 0 <= i < |importances| ==> importances[i] >= 0.0
    requires exists i :: 0 <= i < |importances| && importances[i] > 0.0
    ensures var fi := SortValues(Series(importances, features));
      && (forall k :: 0 <= k < |fi| ==> fi[k].weight >= 0.0)
      && |fi| > 0 && MaxWeight(fi) > 0.0
  {
    var series := Series(importances, features);
    var fi := SortValues(series);
    var j :| 0 <= j < |importances| && importances[j] > 0.0;
    assert series[j] in multiset(fi);
    forall k | 0 <= k < |fi|
      ensures fi[k].weight >= 0.0
    {
      assert fi[k] in multiset(series);
    }
    PositiveMax(fi, series[j]);
  }

  /**
   * The feature-importance panel: the Series sorted descending, its top ten
   * entries drawn as bars, each width the weight over the Series maximum
   * times 100. With non-negative importances one of which is
   * positive, every width lies in [0, 100] and the first bar is at 100.
   */
  method FeatureImportancePanel(importances: seq<real>, features: seq<string>) returns (bars: seq<Bar>)
    requires |importances| == |features|
    ensures |bars| == HeadLength(|features|)
    ensures forall i :: 0 <= i < |bars| ==>
      && bars[i].name == DisplayName(LabelMap, SortValues(Series(importances, features))[i].feature)
      && bars[i].weight == SortValues(Series(importances, features))[i].weight
      && bars[i].pct == Percent(SortValues(Series(importances, features))[i].weight,
                                MaxWeight(SortValues(Series(importances, features))))
    ensures forall i, j :: 0 <= i < j < |bars| ==> bars[i].weight >= bars[j].weight
    ensures (forall i :: 0 <= i < |importances| ==> importances[i] >= 0.0) &&
            (exists i :: 0 <= i < |importances| && importances[i] > 0.0) ==>
      && (forall i :: 0 <= i < |bars| ==> bars[i].pct.Some? && 0.0 <= bars[i].pct.value <= 100.0)
      && bars[0].pct == Some(100.0)
  {
    var fi := SortValues(Series(importances, features));
    bars := ImportanceBars(fi, LabelMap);
    if (forall i :: 0 <= i < |importances| ==> importances[i] >= 0.0) &&
       (exists i :: 0 <= i < |importances| && importances[i] > 0.0) {
      SortedSeriesWeights(importances, features);
    }
  }
}
