/**
  The prediction service: the three ordered feature schemas, the one-row frame each
  predictor is called with, and the confidence score of a feasibility prediction.
  The pre-trained predictors are opaque and are given as functions of the frame.
 */
module Predictors {
  import opened Wrappers
  import opened Records

  /** Column order of the feasibility classifier. */
  const FeatureNames: seq<string> := [
    "Estimated_Cost_USD",
    "Time_Estimate_Days",
    "Resource_Allocation_Score",
    "Risk_Assessment_Score",
    "Environmental_Impact_Score",
    "Historical_Cost_Deviation_%",
    "Stakeholder_Priority_Score",
    "Scope_Complexity_Numeric",
    "Project_Type_Building",
    "Project_Type_Power Plant",
    "Project_Type_Road",
    "Project_Type_Water Infra"
  ]

  /** Column order of the cost regressor. */
  const CostFeatureNames: seq<string> := [
    "Scope_Complexity_Numeric",
    "Resource_Allocation_Score",
    "Risk_Assessment_Score",
    "Environmental_Impact_Score",
    "Historical_Cost_Deviation_%",
    "Stakeholder_Priority_Score",
    "Project_Type_Building",
    "Project_Type_Power Plant",
    "Project_Type_Road",
    "Project_Type_Water Infra"
  ]

  /** Column order of the time regressor. */
  const TimeFeatureNames: seq<string> := [
    "Resource_Allocation_Score",
    "Risk_Assessment_Score",
    "Environmental_Impact_Score",
    "Historical_Cost_Deviation_%",
    "Stakeholder_Priority_Score",
    "Scope_Complexity_Numeric",
    "Project_Type_Building",
    "Project_Type_Power Plant",
    "Project_Type_Road",
    "Project_Type_Water Infra"
  ]

  /** The default confidence of a classifier that gives no class probabilities. */
  const DefaultConfidence: real := 0.85

  /** A one-row data frame: each entry of the row paired with the column it is read as. */
  type Frame<V> = seq<(string, Feature<V>)>

  /** The feasibility classifier: a class index, and class probabilities when it has them. */
  datatype Classifier<!V> = Classifier(predict: Frame<V> -> int, probabilities: Option<Frame<V> -> seq<real>>)

  /** The cost or time regressor. */
  datatype Regressor<!V> = Regressor(predict: Frame<V> -> real)

  /** A frame built from one row under the given column names: columns are bound by
      position, and a row of another width is refused. */
  function BuildFrame<V>(columns: seq<string>, row: seq<Feature<V>>): (f: Result<Frame<V>, Error>)
    ensures f.Success? <==> |row| == |columns|
    ensures f.Failure? ==> f.error == ShapeMismatch(|columns|, |row|)
    ensures f.Success? ==> |f.value| == |row|
    ensures f.Success? ==> forall i :: 0 <= i < |row| ==> f.value[i] == (columns[i], row[i])
  {
    if |row| != |columns| then Failure(ShapeMismatch(|columns|, |row|))
    else Success(seq(|row|, i requires 0 <= i < |row| => (columns[i], row[i])))
  }

  /** The frame reads every column as the record says that column should be read. */
  ghost predicate BindsRecord<V>(f: Frame<V>, r: InputRecord<V>) {
    forall i :: 0 <= i < |f| ==> ColumnOf(r, f[i].0) == Some(f[i].1)
  }

  function PredictFeasibility<V>(m: Classifier<V>, row: seq<Feature<V>>): (k: Result<int, Error>)
    ensures k.Success? <==> |row| == |FeatureNames|
    ensures k.Failure? ==> k.error == ShapeMismatch(12, |row|)
    ensures k.Success? ==> k.value == m.predict(BuildFrame(FeatureNames, row).value)
  {
    var f :- BuildFrame(FeatureNames, row);
    Success(m.predict(f))
  }

  function PredictCost<V>(m: Regressor<V>, row: seq<Feature<V>>): (c: Result<real, Error>)
    ensures c.Success? <==> |row| == |CostFeatureNames|
    ensures c.Failure? ==> c.error == ShapeMismatch(10, |row|)
    ensures c.Success? ==> c.value == m.predict(BuildFrame(CostFeatureNames, row).value)
  {
    var f :- BuildFrame(CostFeatureNames, row);
    Success(m.predict(f))
  }

  function PredictTime<V>(m: Regressor<V>, row: seq<Feature<V>>): (d: Result<real, Error>)
    ensures d.Success? <==> |row| == |TimeFeatureNames|
    ensures d.Failure? ==> d.error == ShapeMismatch(10, |row|)
    ensures d.Success? ==> d.value == m.predict(BuildFrame(TimeFeatureNames, row).value)
  {
    var f :- BuildFrame(TimeFeatureNames, row);
    Success(m.predict(f))
  }

  /** The largest probability, found by a left-to-right scan as `max` does. */
  function MaxOf(ps: seq<real>): (m: real)
    requires ps != []
    ensures m in ps
    ensures forall p :: p in ps ==> p <= m
  {
    if |ps| == 1 then ps[0]
    else
      var init, last := ps[..|ps| - 1], ps[|ps| - 1];
      var best := MaxOf(init);
      assert ps == init + [last];
      if last > best then last else best
  }

  /** The confidence of the feasibility prediction for a row. The frame is built first, so
      a row of the wrong width fails even for a classifier without probabilities; a
      classifier without probabilities then gives 0.85, and one with them gives the
      largest probability (an empty list has no largest element). */
  function PredictionConfidence<V>(m: Classifier<V>, row: seq<Feature<V>>): (c: Result<real, Error>)
    ensures |row| != |FeatureNames| ==> c == Failure(ShapeMismatch(12, |row|))
    ensures |row| == |FeatureNames| && m.probabilities.None? ==> c == Success(0.85)
    ensures |row| == |FeatureNames| && m.probabilities.Some? ==>
      var ps := m.probabilities.value(BuildFrame(FeatureNames, row).value);
      && (ps == [] <==> c.Failure?)
      && (ps == [] ==> c.error == EmptyProbabilities)
      && (c.Success? ==> c.value in ps && forall p :: p in ps ==> p <= c.value)
  {
    var f :- BuildFrame(FeatureNames, row);
    match m.probabilities
    case None => Success(DefaultConfidence)
    case Some(proba) =>
      var ps := proba(f);
      if ps == [] then Failure(EmptyProbabilities) else Success(MaxOf(ps))
  }

  /** When every class probability lies in [0, 1], so does the confidence. */
  lemma ConfidenceInUnitInterval<V>(m: Classifier<V>, row: seq<Feature<V>>)
    requires PredictionConfidence(m, row).Success?
    requires m.probabilities.Some? ==>
      forall p :: p in m.probabilities.value(BuildFrame(FeatureNames, row).value) ==> 0.0 <= p <= 1.0
    ensures 0.0 <= PredictionConfidence(m, row).value <= 1.0
  {
  }

  /** The schemas' widths: 12 feasibility columns and 10 each for cost and time. */
  lemma SchemaWidths()
    ensures |FeatureNames| == 12 && |CostFeatureNames| == 10 && |TimeFeatureNames| == 10
  {
  }

  /** No schema names a column twice. */
  lemma SchemasDistinct()
    ensures Distinct(FeatureNames) && Distinct(CostFeatureNames) && Distinct(TimeFeatureNames)
  {
  }

  /** Cost and time read the same ten columns, each once. */
  lemma CostAndTimeSameNames()
    ensures multiset(CostFeatureNames) == multiset(TimeFeatureNames)
  {
    var c := CostFeatureNames;
    TimeIsRotatedCost();
    assert c == c[..1] + c[1..6] + c[6..];
  }

  /** The time order moves the cost order's first column to position 5. */
  lemma TimeIsRotatedCost()
    ensures TimeFeatureNames == CostFeatureNames[1..6] + CostFeatureNames[..1] + CostFeatureNames[6..]
  {
  }

  /** Cost and time read their columns in different orders: the complexity column is first for cost and sixth for time. */
  lemma CostAndTimeOrdersDiffer()
    ensures CostFeatureNames[0] == "Scope_Complexity_Numeric" == TimeFeatureNames[5]
    ensures CostFeatureNames != TimeFeatureNames
  {
    assert CostFeatureNames[0] != TimeFeatureNames[0];
  }

  /** Every cost and time column is a feasibility column; neither regressor reads the
      estimated cost or the time estimate. */
  lemma RegressorColumnsAmongFeatureNames()
    ensures forall n :: n in CostFeatureNames ==> n in FeatureNames
    ensures forall n :: n in TimeFeatureNames ==> n in FeatureNames
    ensures "Estimated_Cost_USD" !in CostFeatureNames && "Estimated_Cost_USD" !in TimeFeatureNames
    ensures "Time_Estimate_Days" !in CostFeatureNames && "Time_Estimate_Days" !in TimeFeatureNames
  {
  }

  /** All three schemas end in the same four project-type indicator columns. */
  lemma IndicatorColumnsLast()
    ensures FeatureNames[8..] == CostFeatureNames[6..] == TimeFeatureNames[6..]
    ensures forall n :: n in FeatureNames[8..] ==> HasIndicatorPrefix(n)
  {
  }

  /** Every feasibility column has a meaning for every record. */
  lemma FeatureColumnsKnown<V>(r: InputRecord<V>)
    ensures forall n :: n in FeatureNames ==> ColumnOf(r, n).Some?
  {
    IndicatorColumn(r, "Building");
    IndicatorColumn(r, "Power Plant");
    IndicatorColumn(r, "Road");
    IndicatorColumn(r, "Water Infra");
  }

  /** A row encoded for a schema builds that schema's frame, and the frame reads each
      column as the record means it. */
  lemma EncodedRowBindsRecord<V>(r: InputRecord<V>, schema: seq<string>)
    requires Encode(Columns(r), schema).Some?
    ensures BuildFrame(schema, Encode(Columns(r), schema).value).Success?
    ensures BindsRecord(BuildFrame(schema, Encode(Columns(r), schema).value).value, r)
  {
  }

  /** For every record the cost and time rows exist, and the time row is the cost row with
      its first entry moved to position 5: the same entries in another order. */
  lemma CostAndTimeRows<V>(r: InputRecord<V>)
    ensures Encode(Columns(r), CostFeatureNames).Some? && Encode(Columns(r), TimeFeatureNames).Some?
    ensures var c, t := Encode(Columns(r), CostFeatureNames).value, Encode(Columns(r), TimeFeatureNames).value;
      && t == c[1..6] + [c[0]] + c[6..]
      && multiset(c) == multiset(t)
  {
    FeatureColumnsKnown(r);
    RegressorColumnsAmongFeatureNames();
    TimeIsRotatedCost();
    EncodeRotated(Columns(r), CostFeatureNames);
  }

  /** Moving a schema's first column to position 5 moves the row's first entry likewise. */
  lemma {:induction false} EncodeRotated<V>(columns: string -> Option<Feature<V>>, n: seq<string>)
    requires 6 <= |n|
    requires Encode(columns, n).Some?
    ensures var c := Encode(columns, n).value;
      && Encode(columns, n[1..6] + n[..1] + n[6..]) == Some(c[1..6] + [c[0]] + c[6..])
      && multiset(c) == multiset(c[1..6] + [c[0]] + c[6..])
  {
    var c := Encode(columns, n).value;
    EncodeSlice(columns, n, 0, 1);
    EncodeSlice(columns, n, 1, 6);
    EncodeSlice(columns, n, 6, |n|);
    assert n[6..|n|] == n[6..] && c[6..|n|] == c[6..];
    EncodeConcat(columns, n[1..6], n[..1]);
    EncodeConcat(columns, n[1..6] + n[..1], n[6..]);
    assert Encode(columns, n[1..6] + n[..1]) == Some(c[1..6] + c[..1]);
    assert Encode(columns, n[1..6] + n[..1] + n[6..]) == Some(c[1..6] + c[..1] + c[6..]);
    assert c[..1] == [c[0]];
    assert c == c[..1] + c[1..6] + c[6..];
  }

  /** A cost row handed to the time regressor is not refused (the widths agree), yet it is
      read correctly only when the six numeric fields it rotates are all equal. */
  lemma CostRowUnderTimeSchema<V>(r: InputRecord<V>)
    ensures Encode(Columns(r), CostFeatureNames).Some?
    ensures BuildFrame(TimeFeatureNames, Encode(Columns(r), CostFeatureNames).value).Success?
    ensures BindsRecord(BuildFrame(TimeFeatureNames, Encode(Columns(r), CostFeatureNames).value).value, r) <==>
      && r.scopeComplexityNumeric == r.resourceAllocationScore
      && r.resourceAllocationScore == r.riskAssessmentScore
      && r.riskAssessmentScore == r.environmentalImpactScore
      && r.environmentalImpactScore == r.historicalCostDeviation
      && r.historicalCostDeviation == r.stakeholderPriorityScore
  {
    CostAndTimeRows(r);
    var c := Encode(Columns(r), CostFeatureNames).value;
    var f := BuildFrame(TimeFeatureNames, c).value;
    FeatureColumnsKnown(r);
    RegressorColumnsAmongFeatureNames();
    assert f[0] == ("Resource_Allocation_Score", Measure(r.scopeComplexityNumeric));
    assert f[1] == ("Risk_Assessment_Score", Measure(r.resourceAllocationScore));
    assert f[2] == ("Environmental_Impact_Score", Measure(r.riskAssessmentScore));
    assert f[3] == ("Historical_Cost_Deviation_%", Measure(r.environmentalImpactScore));
    assert f[4] == ("Stakeholder_Priority_Score", Measure(r.historicalCostDeviation));
    assert f[5] == ("Scope_Complexity_Numeric", Measure(r.stakeholderPriorityScore));
  }
}
