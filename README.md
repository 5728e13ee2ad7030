# Credit-card fraud demo: decision and dataset logic in Dafny

The repository is a small fraud-detection demo with two parts:

- **`train_model.py`** generates a synthetic table of card transactions and trains a classifier on it. It builds, in memory, 49,000 legitimate rows and 1,000 fraud rows, each with fifteen raw fields and three derived features. It saves only the fitted model, the scaler and the ordered list of the 18 feature names.
- **`app.py`** is a dashboard. It turns sidebar inputs into the same 18-column record, asks the classifier for a fraud probability, and renders the results: the decision, a four-way risk tier, a list of rule-based risk flags with colours, and the top ten feature importances as bars.

This project models the hand-written logic around the classifier and proves what that logic promises.

- `util.dfy`: `Option` and `Result`.
- `transaction.dfy` (module `Transaction`): the raw record and the one definition of the three derived features, `Engineer`. It also holds the name-keyed view of a row and `Select`, which is pandas' `frame[names]` including its KeyError path.
- `train_model.dfy` (module `TrainModel`): the training-side assembly:
  - the fraud/legit split of N rows;
  - the supports of the generators' draws;
  - the `Frame` class, whose columns are assigned in place;
  - labelling, concatenation and the shuffle;
  - the derived columns;
  - the persisted `FEATURES` list.
- `app.dfy` (module `App`): the dashboard side:
  - the sidebar inputs and `dow_map`;
  - the input record and its reordering by `FEATURES`;
  - the decision rule and the risk tier;
  - the flag builder and the colour lookup;
  - the importance bars.
- `consistency.dfy` (module `Consistency`): the link between the two scripts. For the same transaction, the dashboard's vector is the vector the training table holds.

The classifier, the scaler and the random generators are outside the model:

- The fraud probability is a parameter of the dashboard members.
- A random draw is a nondeterministic choice from its support.
- The shuffle's draws are a parameter.
- Python floats are modelled as Dafny `real`.

## Model

| member | source | states |
|---|---|---|
| Transaction.Engineer | app.py:470-472 | the one definition of the derived features, used by both scripts (also train_model.py:75-77): amount/(avg_amount_30d+1), n1h/(n24h+1), (velocity+geo)/2, for non-zero denominators. `EngineerMeaning` and `EngineerBounds` state what it means |
| Transaction.EngineerMeaning | app.py:470-472 | each derived feature times its denominator gives back its numerator (ratio·(avg+1) = amount, burst·(n24h+1) = n1h), and the composite is the midpoint of the two scores |
| Transaction.EngineerBounds | app.py:445-454 | for a non-negative average and counts and scores in [0,1], both denominators are at least 1 and the composite lies in [0,1] between the two scores. The burst lies in [0, n1h], and the ratio does not exceed a non-negative amount |
| Transaction.RawColumnNames | train_model.py:30-45 | the fifteen column names of the generators' DataFrame, in the order the dict lists them |
| Transaction.DerivedColumnNames | train_model.py:75-77 | the three derived column names, in the order they are assigned |
| Transaction.RawColumns | train_model.py:29-46 | the raw view of a record has exactly the fifteen generated column names as keys |
| Transaction.DerivedColumns | train_model.py:75-77 | its keys are exactly the three derived column names |
| Transaction.EngineeredColumns | train_model.py:75-77 | an engineered row has the fifteen raw names and the three derived names as keys |
| Transaction.EngineeredLookup | train_model.py:75-77 | in an engineered row each derived name holds the matching field of `Engineer` |
| Transaction.Select | app.py:495 | `frame[names]` succeeds iff every name is a column, and then the i-th value is the column `names[i]`. Otherwise it fails listing exactly the missing names (pandas KeyError) |
| Transaction.SelectAgrees | app.py:495 | two rows that agree on every selected name give the same selection |
| TrainModel.Int | train_model.py:26 | Python `int()` truncates toward zero: floor for non-negative values and ceiling for negative ones |
| TrainModel.N | train_model.py:23 | the dataset size, 50,000 rows |
| TrainModel.FRAUD_RATE | train_model.py:24 | the fraud share, 0.02 |
| TrainModel.NFraud | train_model.py:26 | n_fraud = int(N * FRAUD_RATE) with FRAUD_RATE = 0.02, so 2% of N truncated; `SplitCounts` proves it is N div 50 |
| TrainModel.NLegit | train_model.py:27 | n_legit = N − n_fraud; `SplitCounts` proves the two counts add up to N |
| TrainModel.SplitCounts | train_model.py:26-27 | for N ≥ 0, n_fraud = N div 50, both counts lie in [0, N], and n_fraud + n_legit = N |
| TrainModel.DefaultCounts | train_model.py:23-27 | with N = 50,000 the split is 1,000 fraud and 49,000 legitimate rows |
| TrainModel.Range | train_model.py:32 | `range(lo, hi)` has hi−lo entries, and h is in it iff lo ≤ h < hi |
| TrainModel.LegitHours | train_model.py:32 | the constant list `range(6, 23)` of legitimate hours |
| TrainModel.FraudHours | train_model.py:51 | the constant list `list(range(0, 6)) + list(range(22, 24))` of fraud hours |
| TrainModel.HourSupports | train_model.py:32-51 | legitimate hours are exactly 6..22 and fraud hours exactly 0..5, 22 and 23. They overlap only at 22 and together cover 0..23 |
| TrainModel.CommonSupport | train_model.py:29-65 | the support of every draw but the hour, the same for both populations: positive log-normal amount and average, non-negative Poisson counts and exponential distance and recency, beta scores in [0, 1], day in range(7), merchant in range(10), flags in {0, 1} |
| TrainModel.LegitSupport | train_model.py:29-46 | a legitimate record: the common support with the hour drawn from range(6, 23) |
| TrainModel.FraudSupport | train_model.py:48-65 | a fraud record: the common support with the hour drawn from range(0, 6) + range(22, 24) |
| TrainModel.SupportIsEngineerable | train_model.py:29-65 | every generated record has non-zero denominators, a composite in [0,1], a burst in [0, n1h] and a ratio in [0, amount] |
| TrainModel.DrawRecords | train_model.py:29-65 | yields n records, each field within its draw's support and the hour taken from the given list |
| TrainModel.MakeLegit | train_model.py:29-46 | n records whose values lie in the legitimate supports (hours 6..22) |
| TrainModel.MakeFraud | train_model.py:48-65 | n records whose values lie in the fraud supports (hours 0..5, 22, 23) |
| TrainModel.Columns | train_model.py:87 | a table row read by column name: the fifteen raw columns and the assigned ones, an assigned one taking precedence |
| TrainModel.Label | train_model.py:88 | y for a row: the `is_fraud` column if it is assigned, else nothing |
| TrainModel.Frame.constructor | train_model.py:67-69 | a frame over the records, one row each, with no column assigned yet |
| TrainModel.Frame.FromRows | train_model.py:72 | a frame holding exactly the given rows |
| TrainModel.Frame.SetColumn | train_model.py:68-77 | `df[name] = values` sets `name` in row i to `values[i]` and changes nothing else |
| TrainModel.Broadcast | train_model.py:68-70 | a scalar assignment gives every row the same value |
| TrainModel.AmountToAvgColumn | train_model.py:75 | row i's value is Engineer's ratio for row i |
| TrainModel.TxnBurstColumn | train_model.py:76 | row i's value is Engineer's burst for row i |
| TrainModel.RiskCompositeColumn | train_model.py:77 | row i's value is Engineer's composite for row i |
| TrainModel.Sample | train_model.py:72 | the shuffle keeps the row count and the multiset of rows (labels included) |
| TrainModel.LabelCount | train_model.py:68-72 | how many rows carry label l; the four LabelCount lemmas give its behaviour under concatenation, uniform labelling, reordering and adding columns |
| TrainModel.LabelCountAppend | train_model.py:72 | a label's count over a concatenation is the sum of the counts |
| TrainModel.LabelCountUniform | train_model.py:68-70 | in a frame labelled l throughout, every row counts for l and none for any other label |
| TrainModel.LabelCountPermutation | train_model.py:72 | reordering the rows keeps each label's count |
| TrainModel.LabelCountPointwise | train_model.py:75-77 | adding columns that leave every label alone keeps the counts |
| TrainModel.CombinedCounts | train_model.py:67-72 | concatenating legitimate rows labelled 0 with fraud rows labelled 1 gives counts equal to the two lengths |
| TrainModel.LabelledPopulations | train_model.py:67-72 | the concatenation has n_legit + n_fraud rows, n_legit labelled 0 and n_fraud labelled 1. Every row has only its label assigned, and its values lie in its class's support |
| TrainModel.AddDerivedColumns | train_model.py:75-77 | each row gains exactly the three derived columns of its own raw values, and its other fields are unchanged |
| TrainModel.TrainingRowDerived | train_model.py:75-77 | a finished row's derived columns hold `Engineer` of its raw values |
| TrainModel.FinishedRow | train_model.py:67-77 | a labelled row with the derived columns added is a finished training row with the same label |
| TrainModel.GenerateDataset | train_model.py:67-77 | the table has n rows, n_legit labelled 0 and n_fraud labelled 1. Every row is a finished training row: label and support match, and the derived columns equal `Engineer` |
| TrainModel.FEATURES | train_model.py:79-85 | the constant 18-name feature list, persisted at line 146 and loaded by the dashboard |
| TrainModel.FeatureList | train_model.py:79-85 | FEATURES holds 18 pairwise distinct names: the fifteen generated columns in order, then the three derived ones |
| TrainModel.TrainingVector | train_model.py:87-88 | `df[FEATURES]` of a finished row succeeds and equals the engineered record read in FEATURES order, and the label y is 0 or 1 |
| TrainModel.LabelIsNotFeature | train_model.py:79-88 | `is_fraud` is not a feature and is not a raw or derived column |
| TrainModel.EngineeredHasFeatures | train_model.py:79-85 | every feature name is a column of an engineered record |
| TrainModel.SelectIgnores | train_model.py:87 | assigning a column that is not selected leaves the selection unchanged |
| App.DowMap | app.py:429 | the constant map `dow_map` from Mon..Sun to 0..6 |
| App.DayNames | app.py:428 | the day-of-week selectbox options, Mon to Sun in that order |
| App.InSliderDomain | app.py:426-454 | the range each slider and selectbox allows: amount 0.5–5000, hour 0–23, a listed day, recency 0–30, merchant 0–9, distance 0–1000, counts 0–20 and 0–50, average 1–3000, and the credit fraction and both scores in [0, 1] |
| App.BoolToInt | app.py:483-485 | `int()` of a checkbox: 1 for checked, 0 otherwise |
| App.RawOf | app.py:474-489 | the fifteen raw entries of `input_data`: the sidebar values, the day name numbered through `dow_map`, the three checkboxes as 0/1 |
| App.DowMapBijection | app.py:428-429 | `dow_map`'s keys are exactly the seven selectbox names and number them 0..6 in selectbox order. Its values are exactly 0..6, and it is injective |
| App.SliderDomainIsScoreable | app.py:426-454 | every input the widgets allow gives a known day name and positive denominators |
| App.InputData | app.py:470-493 | the input record is exactly the engineered record of the sidebar's raw transaction |
| App.SidebarEngineer | app.py:470-472 | the derived values of the sidebar's transaction are the three formulas over the sidebar inputs |
| App.InputDataDerived | app.py:470-493 | the record's derived entries are amount/(avg+1), n1h/(n24h+1) and (v+g)/2 |
| App.RecordedDay | app.py:477 | the day entry is the day name's number in `dow_map` |
| App.InputVector | app.py:495 | `pd.DataFrame([input_data])[FEATURES]`: `Select` of the input record by the loaded feature list, which fails with the missing names as pandas' KeyError does |
| App.InputVectorWithTrainingFeatures | app.py:495 | with the persisted feature list the selection succeeds with 18 values, the i-th being `input_data[FEATURES[i]]` |
| App.InputVectorDerivedTail | app.py:470-495 | the vector's last three entries are the derived features of the transaction |
| App.ExampleDerived | app.py:470-472 | amount 120, average 85, counts 1 and 4, and scores 0.1 and 0.05 give the ratio 120/86, the burst 0.2 and the composite 0.075 |
| App.ExampleVector | app.py:470-495 | for that example on a Tuesday, the day is recorded as 1 and the selected vector ends with 120/86, 0.2 and 0.075 |
| App.InputDataKeys | app.py:474-493 | the record's keys are exactly the 18 feature names |
| App.Prediction | app.py:499 | `int(prob_fraud > 0.5)`; `DecisionRule` states its meaning |
| App.DecisionRule | app.py:499 | the prediction is 0 or 1, and it is 1 iff p > 0.5: 0.5 gives 0 and 0.5000001 gives 1 |
| App.RiskTier | app.py:502-505 | the if/elif chain on prob_fraud with cut-offs 0.2, 0.5 and 0.8; `TierPartition` and `TierMonotone` state its meaning |
| App.Tier.Name | app.py:502-505 | the `risk_tier` string of each tier |
| App.Tier.Colour | app.py:502-505 | the `risk_color` of each tier |
| App.TierPartition | app.py:502-505 | LOW iff p < 0.2, MODERATE iff 0.2 ≤ p < 0.5, HIGH iff 0.5 ≤ p < 0.8, CRITICAL iff p ≥ 0.8. 0.2 is MODERATE and 0.1999 is LOW |
| App.TierMonotone | app.py:502-505 | p ≤ q never gives q a lower tier than p |
| App.DecisionVersusTier | app.py:499-505 | a fraud decision implies HIGH or CRITICAL, and LOW or MODERATE implies legitimate. The converse fails at 0.5: HIGH, but not fraud |
| App.TierDisplay | app.py:502-505 | on each branch the tier name and colour are assigned together (LOW #10b981, MODERATE #f59e0b, HIGH #ef4444, CRITICAL #dc2626), and the four names are distinct |
| App.TierColoursMatchLevels | app.py:502-614 | the LOW, MODERATE and HIGH tier colours equal the risk-factor colours of levels LOW, MED and HIGH; CRITICAL's colour is not a risk-factor colour |
| App.Rules | app.py:601-608 | the eight guards of the flag chain paired with the flag each appends, in source order |
| App.Kept | app.py:599-608 | the flags of the rules whose guard holds, in rule order; `KeptMembership` and `KeptOrdered` state its meaning |
| App.RiskFlags | app.py:598-610 | the flag list: the kept rules when prob_fraud > 0.5, otherwise the one LOW entry; `FlagsWhenFraud` and `FlagsWhenLegitimate` state its meaning |
| App.BuildFlags | app.py:598-610 | the guard chain builds exactly the specified list: a strict-threshold decision, then flag k appended iff rule k fires, or the one LOW entry |
| App.RulesAt | app.py:601-608 | the eight guards and their flags, in source order |
| App.Step | app.py:601-608 | one guard of the chain extends the kept prefix by one rule |
| App.KeptAppend | app.py:599-610 | keeping the flags of two rule lists in sequence concatenates the results |
| App.KeptStep | app.py:599-610 | one more rule appends its flag exactly when its condition holds |
| App.KeptMembership | app.py:599-610 | a flag is kept iff some rule producing it fires |
| App.KeptOrdered | app.py:599-610 | the kept flags are no more than the rules, and they come in rule order |
| App.FlagsWhenLegitimate | app.py:609-610 | if p ≤ 0.5 the list is exactly the one LOW entry |
| App.FlagsWhenFraud | app.py:599-608 | if p > 0.5 there are at most 8 flags, each HIGH or MED. A flag is present iff it is the flag of a rule whose condition holds (so the list may be empty), and the flags come in chain order |
| App.LevelColours | app.py:614 | the constant level-to-colour map HIGH #ef4444, MED #f59e0b, LOW #10b981 |
| App.ColourLookupTotal | app.py:612-614 | every level the builder emits is a key of the colour map |
| App.RenderRows | app.py:612-624 | rendering succeeds iff every level has a colour, and then row i pairs flag i's level and indicator with its colour. Otherwise the KeyError names the first level without one |
| App.RiskFactorTable | app.py:598-624 | the risk-factor panel never fails: one row per flag, each with its flag's level, indicator and colour |
| App.Series | app.py:682 | `pd.Series(importances, index=FEATURES)`: entry i pairs features[i] with importances[i] |
| App.InsertDesc | app.py:682 | inserting into a descending list keeps it descending and adds exactly the new entry |
| App.ConsSorted | app.py:682 | a descending list stays descending under a new head that is not below its first entry |
| App.SortValues | app.py:682 | `sort_values(ascending=False)` gives a descending rearrangement of the Series |
| App.MaxWeight | app.py:683 | `fi.max()` is a weight of the Series that no weight exceeds |
| App.SortedMaxIsFirst | app.py:682-683 | in a descending Series the first weight is the maximum |
| App.Percent | app.py:698 | `val / max_fi * 100`, or none (NaN) when max_fi is 0; `PercentBounds` states its range |
| App.PercentBounds | app.py:698 | a weight in [0, max] with max > 0 gives a width in [0,100], and the maximum gives 100 |
| App.BarWidths | app.py:697-698 | with non-negative weights and a positive maximum every width is defined and lies in [0,100] |
| App.TopBarWidth | app.py:682-698 | in a sorted Series with a positive maximum the first width is 100 |
| App.LabelMap | app.py:686-696 | the constant `label_map` from the 18 feature names to their display names |
| App.DisplayName | app.py:699 | `label_map.get(feat, feat)`: the display name, or the feature itself when it has none |
| App.HeadLength | app.py:697 | how many entries `fi.head(10)` takes: all of them, at most ten |
| App.LabelMapCoversFeatures | app.py:686-696 | `label_map`'s keys are exactly the 18 features, so no bar falls back to the raw name |
| App.ImportanceBars | app.py:697-699 | one bar per entry of head(10), with name, weight and width val/max·100. Widths lie in [0,100] for non-negative weights with a positive maximum, and the first is 100 when the Series is sorted |
| App.PositiveMax | app.py:683 | a Series holding a positive weight has a positive maximum |
| App.SortedSeriesWeights | app.py:682-683 | sorting keeps non-negative weights non-negative and a positive maximum positive |
| App.FeatureImportancePanel | app.py:682-699 | the panel shows min(10, n) bars of the sorted Series, named through `label_map`, with descending weights, each width that entry's weight / max_fi · 100. For non-negative importances with a positive one, every width lies in [0,100] and the first bar is at 100 |
| Consistency.InferenceMatchesTraining | app.py:495 | for the same transaction the dashboard's vector equals the training row's `df[FEATURES]`, and both selections succeed |
| Consistency.DerivedFeaturesAgree | train_model.py:75-77 | the dashboard's and the training table's three derived values are equal, and both equal the closed-form formulas |

## Left out

- Presentation and I/O:
  - the Streamlit page: layout, CSS, HTML markup, the widgets themselves, the button, the spinner and `time.sleep`;
  - the gauge's trigonometry;
  - the evaluation printout;
  - joblib loading and saving, and the `FileNotFoundError` handling.
- The classifier: scikit-learn's fit, `predict_proba`, `feature_importances_`, the scaler, the train/test split and the metrics are library code. The fraud probability and the importances arrive as parameters.
- The random distributions:
  - Only each draw's support is kept: positivity for log-normal, non-negative integers for Poisson, non-negativity for exponential, [0,1] for beta, and the listed choices for the hour, day, merchant and flags.
  - The seeded generator is not modelled, so reproducibility across runs is not stated.
  - The model draws row by row where numpy draws column by column. The supports are the same either way.
- Floating point: values are mathematical reals, so rounding of divisions, of `N * FRAUD_RATE` and of the widths is not modelled.
- App.Percent: a zero maximum gives NaN or infinity in float division. Here it gives `None`.
- Transaction.Engineer:
  - It requires non-zero denominators. Where pandas would give inf and plain Python would raise ZeroDivisionError, those cases are excluded.
  - The generators' supports and the slider domains make the denominators at least 1 (`SupportIsEngineerable`, `SliderDomainIsScoreable`).
- App.SortValues: pandas' default sort is not stable on equal weights. The model uses a stable insertion sort, so the order among ties is one possible pandas order, not necessarily pandas'.
- App.FeatureImportancePanel:
  - It requires as many importances as features. A length mismatch makes pandas raise, and that case is not modelled.
  - `LabelMap` is passed to the bar loop as a parameter. In the source it is a literal built just before the loop.
- TrainModel.Sample: the shuffle is numpy's Fisher–Yates pass with the draws as a parameter. Which permutation the seed 42 selects is not modelled.
- TrainModel.GenerateDataset:
  - n is a natural number; numpy rejects a negative size.
  - Unlike the verbatim script, which only runs with N = 50,000, the method takes n as a parameter.
- App.BuildFlags: the message strings and icons are not modelled. Each flag carries an `Indicator` value that holds the value each message formats: the distance, the count, the score, or the used credit fraction that the message multiplies by 100.
- App.InputData: it is built as the union of the raw view and the derived view, not as one 18-entry literal. `InputDataKeys` shows that the keys are the same.
- Error behaviour follows the code:
  - The generator does not validate N or the fraud rate.
  - The fraud count is `int()` truncation.
  - A missing input field surfaces as pandas' KeyError listing the missing columns, which is `Select`'s `Failure`.
