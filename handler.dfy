/**
  The prediction request handler's logic: one-hot encoding of the project type, assembly
  of the feasibility row from the form fields, and the mapping of a predicted class to its
  label. Web routing, templating and chart drawing are not part of this model.
 */
module Handler {
  import opened Wrappers
  import opened Records
  import opened Predictors

  /** The project types that get an indicator, in indicator order. */
  const ProjectTypesEncoded: seq<string> := ["Building", "Power Plant", "Road", "Water Infra"]

  /** The category dropped at training time, represented by all indicators being 0. */
  const ReferenceType: string := "Bridge"

  /** The feasibility row's column names, as the handler lists them. */
  const Features: seq<string> := [
    "Estimated_Cost_USD",
    "Time_Estimate_Days",
    "Resource_Allocation_Score",
    "Risk_Assessment_Score",
    "Environmental_Impact_Score",
    "Historical_Cost_Deviation_%",
    "Stakeholder_Priority_Score",
    "Scope_Complexity_Numeric",
    "Project_Type_Building",
    "Project_Type_Power Plant",
    "Project_Type_Road",
    "Project_Type_Water Infra"
  ]

  /** The labels of the classifier's three classes. */
  const LabelMap: map<int, string> := map[0 := "Not Feasible", 1 := "Feasible", 2 := "Borderline"]

  /** What the handler shows: the feasibility label and the confidence score. */
  datatype Prediction = Prediction(result: string, confidence: real)

  /** One 0/1 indicator per listed type: 1 where the type equals `projectType`. */
  function Indicators(types: seq<string>, projectType: string): (bits: seq<nat>)
    ensures |bits| == |types|
    ensures forall i :: 0 <= i < |types| ==> bits[i] <= 1 && (bits[i] == 1 <==> types[i] == projectType)
  {
    seq(|types|, i requires 0 <= i < |types| => if types[i] == projectType then 1 else 0)
  }

  /** The number of indicators that are set. */
  function Ones(bits: seq<nat>): nat {
    if bits == [] then 0 else bits[0] + Ones(bits[1..])
  }

  /** The project type's indicator block. */
  function OneHot(projectType: string): (bits: seq<nat>)
    ensures |bits| == |ProjectTypesEncoded| == 4
    ensures forall i :: 0 <= i < 4 ==> bits[i] <= 1 && (bits[i] == 1 <==> projectType == ProjectTypesEncoded[i])
  {
    Indicators(ProjectTypesEncoded, projectType)
  }

  /** The feasibility row: the eight form values in form order, then the indicator block. */
  function AssembleInput<V>(r: InputRecord<V>): (row: seq<Feature<V>>)
    ensures |row| == |Features| == 12
    ensures row[..8] == [
      Measure(r.estimatedCostUsd), Measure(r.timeEstimateDays), Measure(r.resourceAllocationScore),
      Measure(r.riskAssessmentScore), Measure(r.environmentalImpactScore), Measure(r.historicalCostDeviation),
      Measure(r.stakeholderPriorityScore), Measure(r.scopeComplexityNumeric)]
    ensures forall i :: 8 <= i < 12 ==> row[i] == Indicator(OneHot(r.projectType)[i - 8])
  {
    var bits := OneHot(r.projectType);
    [ Measure(r.estimatedCostUsd),
      Measure(r.timeEstimateDays),
      Measure(r.resourceAllocationScore),
      Measure(r.riskAssessmentScore),
      Measure(r.environmentalImpactScore),
      Measure(r.historicalCostDeviation),
      Measure(r.stakeholderPriorityScore),
      Measure(r.scopeComplexityNumeric) ]
    + seq(4, i requires 0 <= i < 4 => Indicator(bits[i]))
  }

  /** The label of a predicted class; any other index is a failed lookup. */
  function LabelOf(k: int): (l: Result<string, Error>)
    ensures l.Success? <==> 0 <= k <= 2
    ensures l.Failure? ==> l.error == UnknownClass(k)
    ensures k == 0 ==> l == Success("Not Feasible")
    ensures k == 1 ==> l == Success("Feasible")
    ensures k == 2 ==> l == Success("Borderline")
  {
    if k in LabelMap then Success(LabelMap[k]) else Failure(UnknownClass(k))
  }

  /** A prediction request after form parsing: class, confidence and label, in the order
      the handler computes them, so that the first failure is the one reported. */
  function Predict<V>(m: Classifier<V>, r: InputRecord<V>): (o: Result<Prediction, Error>)
    ensures BuildFrame(FeatureNames, AssembleInput(r)).Success?
    ensures var f := BuildFrame(FeatureNames, AssembleInput(r)).value;
      var k := m.predict(f);
      var answers := m.probabilities.None? || m.probabilities.value(f) != [];
      && (o.Failure? ==> !o.error.ShapeMismatch?)
      && (o.Success? <==> answers && 0 <= k <= 2)
      && (!answers ==> o == Failure(EmptyProbabilities))
      && (answers && !(0 <= k <= 2) ==> o == Failure(UnknownClass(k)))
      && (o.Success? ==> k in LabelMap && o.value.result == LabelMap[k])
      && (o.Success? && m.probabilities.None? ==> o.value.confidence == 0.85)
      && (o.Success? && m.probabilities.Some? ==>
            && o.value.confidence in m.probabilities.value(f)
            && forall p :: p in m.probabilities.value(f) ==> p <= o.value.confidence)
  {
    var row := AssembleInput(r);
    match PredictFeasibility(m, row)
    case Failure(e) => Failure(e)
    case Success(k) =>
      var confidence :- PredictionConfidence(m, row);
      var resultLabel :- LabelOf(k);
      Success(Prediction(resultLabel, confidence))
  }

  // ---------------------------------------------------------------------------------------
  // Properties

  /** The eight numeric columns read the form fields of the same name. */
  lemma MeasureColumns<V>(r: InputRecord<V>)
    ensures forall i :: 0 <= i < 8 ==> ColumnOf(r, Features[i]) == Some(AssembleInput(r)[i])
  {
  }

  /** The row the handler assembles by position is exactly the row the classifier's
      schema selects by name: every column holds what its name says. */
  lemma AssembleInputMatchesSchema<V>(r: InputRecord<V>)
    ensures Encode(Columns(r), FeatureNames) == Some(AssembleInput(r))
    ensures BuildFrame(FeatureNames, AssembleInput(r)).Success?
    ensures BindsRecord(BuildFrame(FeatureNames, AssembleInput(r)).value, r)
  {
    var row := AssembleInput(r);
    MeasureColumns(r);
    FeatureColumns(r);
    assert forall i :: 0 <= i < 12 ==> Columns(r)(FeatureNames[i]) == Some(row[i]);
    var encoded := Encode(Columns(r), FeatureNames).value;
    assert encoded == row;
    EncodedRowBindsRecord(r, FeatureNames);
  }

  /** Among distinct types, the indicators set for a project type number one when the type
      is listed and zero otherwise. */
  lemma {:induction false} IndicatorCount(types: seq<string>, projectType: string)
    requires Distinct(types)
    ensures Ones(Indicators(types, projectType)) == if projectType in types then 1 else 0
  {
    if types != [] {
      var bits := Indicators(types, projectType);
      assert bits[1..] == Indicators(types[1..], projectType);
      assert Distinct(types[1..]);
      IndicatorCount(types[1..], projectType);
      assert projectType in types <==> projectType == types[0] || projectType in types[1..];
      if projectType == types[0] {
        assert types[0] !in types[1..];
      }
    }
  }

  /** At most one indicator is set, exactly one when the type is listed, and two set
      indicators are the same one. */
  lemma OneHotAtMostOne(projectType: string)
    ensures Ones(OneHot(projectType)) <= 1
    ensures Ones(OneHot(projectType)) == 1 <==> projectType in ProjectTypesEncoded
    ensures forall i, j :: 0 <= i < 4 && 0 <= j < 4 && OneHot(projectType)[i] == 1 && OneHot(projectType)[j] == 1 ==> i == j
  {
    IndicatorCount(ProjectTypesEncoded, projectType);
  }

  /** The reference type and every unlisted type give the same all-zero block. */
  lemma ReferenceAndUnknownCollapse(projectType: string)
    requires projectType !in ProjectTypesEncoded
    ensures ReferenceType !in ProjectTypesEncoded
    ensures OneHot(projectType) == OneHot(ReferenceType) == [0, 0, 0, 0]
  {
    var bits := OneHot(projectType);
    assert forall i :: 0 <= i < 4 ==> bits[i] == 0;
  }

  /** "Road" sets the third indicator only. */
  lemma RoadBlock()
    ensures OneHot("Road") == [0, 0, 1, 0]
  {
  }

  /** The risk score the handler hands to the gauge chart, the row's entry 3, is the form's
      risk assessment score. */
  lemma RiskScoreFeedsGauge<V>(r: InputRecord<V>)
    ensures Features[3] == "Risk_Assessment_Score"
    ensures AssembleInput(r)[3] == Measure(r.riskAssessmentScore)
  {
  }

  /** Distinct classes have distinct labels. */
  lemma LabelsDistinct(j: int, k: int)
    requires LabelOf(j).Success? && LabelOf(k).Success?
    ensures LabelOf(j) == LabelOf(k) ==> j == k
  {
  }

  /** A road project's feasibility row. */
  lemma RoadScenario()
    ensures AssembleInput(InputRecord("Road", 500000, 120, 7, 6, 5, 10, 8, 2)) ==
      [ Measure(500000), Measure(120), Measure(7), Measure(6), Measure(5), Measure(10), Measure(8), Measure(2),
        Indicator(0), Indicator(0), Indicator(1), Indicator(0) ]
  {
    RoadBlock();
  }

  /** The feasibility row fits only the classifier: either regressor refuses it by width,
      while a row encoded for a regressor's own schema is accepted and read correctly. */
  lemma RowsFitTheirPredictors<V>(r: InputRecord<V>, m: Regressor<V>)
    ensures PredictCost(m, AssembleInput(r)) == Failure(ShapeMismatch(10, 12))
    ensures PredictTime(m, AssembleInput(r)) == Failure(ShapeMismatch(10, 12))
    ensures Encode(Columns(r), CostFeatureNames).Some? && Encode(Columns(r), TimeFeatureNames).Some?
    ensures var c := Encode(Columns(r), CostFeatureNames).value;
      PredictCost(m, c) == Success(m.predict(BuildFrame(CostFeatureNames, c).value))
    ensures var t := Encode(Columns(r), TimeFeatureNames).value;
      PredictTime(m, t) == Success(m.predict(BuildFrame(TimeFeatureNames, t).value))
    ensures BindsRecord(BuildFrame(CostFeatureNames, Encode(Columns(r), CostFeatureNames).value).value, r)
    ensures BindsRecord(BuildFrame(TimeFeatureNames, Encode(Columns(r), TimeFeatureNames).value).value, r)
  {
    CostAndTimeRows(r);
    EncodedRowBindsRecord(r, CostFeatureNames);
    EncodedRowBindsRecord(r, TimeFeatureNames);
  }

  /** The indicator columns are those of the feasibility schema, and the handler's column
      list is the classifier's. */
  lemma FeatureColumns<V>(r: InputRecord<V>)
    ensures Features == FeatureNames
    ensures forall i :: 0 <= i < 4 ==> Features[8 + i] == IndicatorPrefix + ProjectTypesEncoded[i]
    ensures forall i :: 0 <= i < 4 ==>
      ColumnOf(r, Features[8 + i]) == Some(Indicator(OneHot(r.projectType)[i]))
  {
    assert Features[8] == IndicatorPrefix + ProjectTypesEncoded[0];
    assert Features[9] == IndicatorPrefix + ProjectTypesEncoded[1];
    assert Features[10] == IndicatorPrefix + ProjectTypesEncoded[2];
    assert Features[11] == IndicatorPrefix + ProjectTypesEncoded[3];
    IndicatorColumn(r, ProjectTypesEncoded[0]);
    IndicatorColumn(r, ProjectTypesEncoded[1]);
    IndicatorColumn(r, ProjectTypesEncoded[2]);
    IndicatorColumn(r, ProjectTypesEncoded[3]);
  }
}
