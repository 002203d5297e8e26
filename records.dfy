/**
  The project attributes a prediction request carries, and what a named feature column
  holds for such a record. `ColumnOf` is the meaning the trained models give to a column
  name; every ordered schema of the system is read against it.
 */
module Records {
  import opened Wrappers

  /** One project's form fields. The numeric fields are opaque values of type `V`: the
      core never computes with them, it only moves them into position. */
  datatype InputRecord<V> = InputRecord(
    projectType: string,
    estimatedCostUsd: V,
    timeEstimateDays: V,
    resourceAllocationScore: V,
    riskAssessmentScore: V,
    environmentalImpactScore: V,
    historicalCostDeviation: V,
    stakeholderPriorityScore: V,
    scopeComplexityNumeric: V)

  /** One entry of a feature row: a numeric form value passed through, or a 0/1 indicator. */
  datatype Feature<V> = Measure(value: V) | Indicator(bit: nat)

  /** The failures the prediction path can raise. */
  datatype Error =
    | ShapeMismatch(expected: nat, actual: nat)  // a row whose width differs from its schema's
    | EmptyProbabilities                         // `max` of an empty probability list
    | UnknownClass(index: int)                   // a class index missing from the label map

  const IndicatorPrefix: string := "Project_Type_"

  predicate HasIndicatorPrefix(name: string) {
    |IndicatorPrefix| <= |name| && name[..|IndicatorPrefix|] == IndicatorPrefix
  }

  /** The value a record gives the column called `name`: a form field for the eight numeric
      columns, and for `Project_Type_<t>` the indicator "the project type is <t>". */
  function ColumnOf<V>(r: InputRecord<V>, name: string): Option<Feature<V>> {
    if name == "Estimated_Cost_USD" then Some(Measure(r.estimatedCostUsd))
    else if name == "Time_Estimate_Days" then Some(Measure(r.timeEstimateDays))
    else if name == "Resource_Allocation_Score" then Some(Measure(r.resourceAllocationScore))
    else if name == "Risk_Assessment_Score" then Some(Measure(r.riskAssessmentScore))
    else if name == "Environmental_Impact_Score" then Some(Measure(r.environmentalImpactScore))
    else if name == "Historical_Cost_Deviation_%" then Some(Measure(r.historicalCostDeviation))
    else if name == "Stakeholder_Priority_Score" then Some(Measure(r.stakeholderPriorityScore))
    else if name == "Scope_Complexity_Numeric" then Some(Measure(r.scopeComplexityNumeric))
    else if HasIndicatorPrefix(name) then
      Some(Indicator(if r.projectType == name[|IndicatorPrefix|..] then 1 else 0))
    else None
  }

  /** A record seen as its named columns. */
  function Columns<V>(r: InputRecord<V>): string -> Option<Feature<V>> {
    name => ColumnOf(r, name)
  }

  /** The row an ordered schema selects from named columns: entry `i` is column
      `schema[i]`, and a schema naming an unknown column selects no row. */
  function Encode<V>(columns: string -> Option<Feature<V>>, schema: seq<string>): (o: Option<seq<Feature<V>>>)
    ensures o.Some? <==> forall i :: 0 <= i < |schema| ==> columns(schema[i]).Some?
    ensures o.Some? ==> |o.value| == |schema|
    ensures o.Some? ==> forall i :: 0 <= i < |schema| ==> o.value[i] == columns(schema[i]).value
  {
    if schema == [] then Some([])
    else
      match columns(schema[0])
      case None => None
      case Some(c) =>
        match Encode(columns, schema[1..])
        case None => None
        case Some(rest) => Some([c] + rest)
  }

  /** Encoding a schema split in two encodes each part and joins the rows. */
  lemma {:induction false} EncodeConcat<V>(columns: string -> Option<Feature<V>>, a: seq<string>, b: seq<string>)
    ensures Encode(columns, a + b) ==
      if Encode(columns, a).Some? && Encode(columns, b).Some?
      then Some(Encode(columns, a).value + Encode(columns, b).value)
      else None
  {
    if a == [] {
      assert a + b == b;
      if Encode(columns, b).Some? {
        assert [] + Encode(columns, b).value == Encode(columns, b).value;
      }
    } else {
      assert (a + b)[0] == a[0];
      assert (a + b)[1..] == a[1..] + b;
      EncodeConcat(columns, a[1..], b);
      if columns(a[0]).Some? && Encode(columns, a[1..]).Some? && Encode(columns, b).Some? {
        var c, x, y := columns(a[0]).value, Encode(columns, a[1..]).value, Encode(columns, b).value;
        assert [c] + (x + y) == ([c] + x) + y;
      }
    }
  }

  /** A slice of a schema encodes to the same slice of the row. */
  lemma {:induction false} EncodeSlice<V>(columns: string -> Option<Feature<V>>, schema: seq<string>, i: nat, j: nat)
    requires i <= j <= |schema|
    requires Encode(columns, schema).Some?
    ensures Encode(columns, schema[i..j]) == Some(Encode(columns, schema).value[i..j])
  {
    var part, row := schema[i..j], Encode(columns, schema).value;
    forall k | 0 <= k < |part|
      ensures columns(part[k]).Some? && columns(part[k]).value == row[i..j][k]
    {
      assert part[k] == schema[i + k];
    }
    assert Encode(columns, part).Some?;
    var sliced := Encode(columns, part).value;
    assert |sliced| == |row[i..j]|;
    assert forall k :: 0 <= k < |sliced| ==> sliced[k] == row[i..j][k];
    assert sliced == row[i..j];
  }

  /** A column named `Project_Type_<t>` holds the indicator "the project type is <t>". */
  lemma IndicatorColumn<V>(r: InputRecord<V>, t: string)
    ensures ColumnOf(r, IndicatorPrefix + t) == Some(Indicator(if r.projectType == t then 1 else 0))
  {
    var name := IndicatorPrefix + t;
    assert name[0] == 'P';
    assert name[..|IndicatorPrefix|] == IndicatorPrefix;
    assert name[|IndicatorPrefix|..] == t;
  }

  predicate Distinct(names: seq<string>) {
    forall i, j :: 0 <= i < j < |names| ==> names[i] != names[j]
  }
}
