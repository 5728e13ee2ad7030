/**
 * The invariant that ties the two scripts together: the vector the
 * dashboard assembles for a transaction is the vector the training table
 * holds for the same transaction, name by name and in FEATURES order.
 */
module Consistency {
  import opened Util
  import opened Transaction
  import TrainModel
  import App

  /** The dashboard's vector for a transaction is the training table's df[FEATURES] for a row of the same transaction. */
  lemma {:induction false} InferenceMatchesTraining(s: App.Sidebar, row: TrainModel.Row)
    requires App.Scoreable(s)
    requires TrainModel.TrainingRow(row) && row.raw == App.RawOf(s)
    ensures App.InputVector(s, TrainModel.FEATURES) == Select(TrainModel.Columns(row), TrainModel.FEATURES)
    ensures App.InputVector(s, TrainModel.FEATURES).Success?
  {
    TrainModel.TrainingVector(row);
  }

  /** Both scripts derive a transaction's three features by the same formulas. */
  lemma DerivedFeaturesAgree(s: App.Sidebar, row: TrainModel.Row)
    requires App.Scoreable(s)
    requires TrainModel.TrainingRow(row) && row.raw == App.RawOf(s)
    ensures App.InputData(s)["amount_to_avg_ratio"] == row.extra["amount_to_avg_ratio"] == s.amount / (s.avgAmt30d + 1.0)
    ensures App.InputData(s)["txn_burst"] == row.extra["txn_burst"] == s.numTxn1h as real / (s.numTxn24h as real + 1.0)
    ensures App.InputData(s)["risk_composite"] == row.extra["risk_composite"] == (s.velocitySc + s.geoRiskSc) / 2.0
  {
    App.SidebarEngineer(s);
    App.InputDataDerived(s);
    TrainModel.TrainingRowDerived(row);
  }
}
