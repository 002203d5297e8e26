# Construction-project feasibility predictor: feature encoding and prediction contract

This project models the part of the feasibility web service that has logic of its own:
how a submitted project record becomes the ordered feature row a pre-trained predictor
is called with, and how the predictor's answer becomes the label and confidence the page
shows.

- `Records` (records.dfy, the column meanings behind every schema): the input record (project type plus eight numeric form
  fields), a feature entry (a numeric value passed through, or a 0/1 indicator), and
  `ColumnOf`, the meaning the trained models give to each column name: a numeric column
  holds the form field of that name, and `Project_Type_<t>` holds 1 exactly when the
  project type is `<t>`. `Encode` selects, for an ordered schema, the row whose entry `i`
  is column `schema[i]`. It is the reference every positional row is checked against.
- `Predictors` (predictors.dfy, modelling app/model.py): the three ordered schemas
  (12 feasibility columns, 10 cost columns, 10 time columns), the one-row frame built by binding a row to a schema by
  position (a row of another width is refused, as the data-frame constructor does), the
  three predict operations and the confidence score: the largest class probability, or
  0.85 when the classifier has no probabilities.
- `Handler` (handler.dfy, modelling app/main.py): the one-hot encoding of the project
  type against Building, Power Plant, Road and Water Infra (Bridge, the dropped reference type, and
  every unknown type give four zeros), the assembly of the 12-entry feasibility row, the
  class-to-label map, and the request's prediction step in the order the handler runs it.

Numeric form values are an opaque type parameter `V`: the core moves them into position
and never computes with them, so the proofs also show they are passed through unchanged.
The pre-trained predictors are function-valued fields of `Classifier` and `Regressor`,
applied to the frame; `Classifier.probabilities` is `None` for a model without class
probabilities.

Two consequences of the code's order of operations:
- The confidence is not always in [0, 1]. It is the largest probability the classifier
  returns, so it is in [0, 1] whenever those probabilities are (`ConfidenceInUnitInterval`);
  nothing bounds it otherwise.
- The frame is built before the probabilities are asked for, and only a missing
  probability method is caught. So a row of the wrong width fails even for a classifier
  without probabilities, and an empty probability list fails too, because `max` of an
  empty list raises.

## Model

| member | source | states |
|---|---|---|
| `Records.Encode` | app/model.py:11-50 | the reference reading of a schema's names: the row selected for a schema exists exactly when every named column is known; it then has the schema's width and entry `i` is column `schema[i]` |
| `Records.IndicatorColumn` | app/main.py:32-33 | the column `Project_Type_<t>` is 1 exactly when the project type is `<t>`, else 0 |
| `Records.EncodeConcat` | app/model.py:26-50 | encoding a schema split in two yields the two rows joined, or no row if either part has none |
| `Predictors.BuildFrame` | app/model.py:53 | a frame is built exactly when the row's width equals the schema's, otherwise a shape error naming both widths; entry `i` of the frame binds column `i` of the schema to entry `i` of the row |
| `Predictors.PredictFeasibility` | app/model.py:52-55 | a row of 12 entries gives the classifier's answer on that row bound to the feasibility schema; any other width is a shape error (12, width) |
| `Predictors.PredictCost` | app/model.py:66-70 | a row of 10 entries gives the cost regressor's answer on that row bound to the cost schema; any other width is a shape error (10, width) |
| `Predictors.PredictTime` | app/model.py:72-76 | a row of 10 entries gives the time regressor's answer on that row bound to the time schema; any other width is a shape error (10, width) |
| `Predictors.MaxOf` | app/model.py:62 | the largest probability is one of the probabilities and no probability exceeds it |
| `Predictors.PredictionConfidence` | app/model.py:57-64 | a row of the wrong width is a shape error even without probabilities; without probabilities the confidence is exactly 0.85; with them it is an element of the list that no element exceeds, and an empty list is an error |
| `Predictors.ConfidenceInUnitInterval` | app/model.py:59-64 | when the class probabilities lie in [0, 1], so does the confidence |
| `Predictors.SchemaWidths` | app/model.py:11-50 | the feasibility schema has 12 names, the cost and time schemas 10 each |
| `Predictors.SchemasDistinct` | app/model.py:11-50 | no schema names a column twice |
| `Predictors.TimeIsRotatedCost` | app/model.py:26-50 | the time order is the cost order with its first name moved to position 5 |
| `Predictors.CostAndTimeSameNames` | app/model.py:26-50 | the cost and time schemas hold the same names, each once (equal multisets) |
| `Predictors.CostAndTimeOrdersDiffer` | app/model.py:27-45 | `Scope_Complexity_Numeric` is at index 0 of the cost schema and index 5 of the time schema, and the two orders differ |
| `Predictors.RegressorColumnsAmongFeatureNames` | app/model.py:11-50 | every cost and time name is a feasibility name, and neither regressor schema has `Estimated_Cost_USD` or `Time_Estimate_Days` |
| `Predictors.IndicatorColumnsLast` | app/model.py:20-49 | all three schemas end with the same four project-type indicator names in the same order |
| `Predictors.FeatureColumnsKnown` | app/model.py:11-24 | every feasibility column has a meaning for every record |
| `Predictors.EncodedRowBindsRecord` | app/model.py:52-76 | a row selected by name for a schema builds that schema's frame, and the frame reads every column as the record means it |
| `Predictors.EncodeRotated` | app/model.py:26-50 | moving a schema's first name to position 5 moves the row's first entry to position 5; the two rows are permutations of each other |
| `Predictors.CostAndTimeRows` | app/model.py:66-76 | every record has a cost row and a time row; the time row is the cost row with its first entry moved to position 5, so both hold the same entries |
| `Predictors.CostRowUnderTimeSchema` | app/model.py:68-74 | a cost row passed to the time regressor is not refused (same width), yet it is read correctly only when the six numeric fields it rotates are all equal |
| `Handler.Indicators` | app/main.py:69 | one entry per listed type, each 0 or 1, and 1 exactly where the listed type equals the project type |
| `Handler.OneHot` | app/main.py:34-69 | the block has 4 entries, each 0 or 1, and entry `i` is 1 exactly when the project type is the `i`-th of Building, Power Plant, Road, Water Infra |
| `Handler.AssembleInput` | app/main.py:71-80 | the row has 12 entries, as many as the feature list; entries 0..7 are cost, time, resource, risk, environmental, deviation, stakeholder and complexity in that order, unchanged; entries 8..11 are the one-hot block |
| `Handler.LabelOf` | app/main.py:98-104 | class 0 is "Not Feasible", 1 "Feasible", 2 "Borderline"; any other index is a lookup error naming that index |
| `Handler.Predict` | app/main.py:95-104 | the handler's row never fails the width check; the prediction step fails with an empty-probability error when the classifier returns no probabilities, else with an unknown-class error when the class is not 0, 1 or 2, else succeeds with that class's label and the confidence (0.85 without probabilities, otherwise the largest probability) |
| `Handler.IndicatorCount` | app/main.py:69 | over distinct types, the number of set indicators is 1 when the project type is listed and 0 otherwise |
| `Handler.OneHotAtMostOne` | app/main.py:34-69 | at most one indicator is set; exactly one is set if and only if the project type is one of the four listed; two set indicators are the same one |
| `Handler.ReferenceAndUnknownCollapse` | app/main.py:32-34 | Bridge is not listed, and Bridge and every unlisted type give the same block `[0, 0, 0, 0]` |
| `Handler.RoadBlock` | app/main.py:34 | Road gives `[0, 0, 1, 0]` |
| `Handler.MeasureColumns` | app/main.py:71-79 | entries 0..7 of the row hold what the columns of the same position in the feature list name |
| `Handler.AssembleInputMatchesSchema` | app/main.py:71-95 | the row assembled by position equals the row the classifier's schema selects by name, so the frame built from it reads every column as the record means it |
| `Handler.FeatureColumns` | app/main.py:34-49 | the handler's feature list equals the classifier's schema; its entry `8 + i` is `Project_Type_` followed by the `i`-th listed type, and that column is the block's entry `i` |
| `Handler.RiskScoreFeedsGauge` | app/visualize.py:154-158 | the value handed to the risk gauge, row entry 3, is the form's risk assessment score |
| `Handler.LabelsDistinct` | app/main.py:98-102 | distinct classes have distinct labels |
| `Handler.RoadScenario` | app/main.py:69-80 | the road project with cost 500000, time 120 and scores 7, 6, 5, 10, 8, 2 gives the row `[500000, 120, 7, 6, 5, 10, 8, 2, 0, 0, 1, 0]` |
| `Handler.RowsFitTheirPredictors` | app/model.py:66-76 | the 12-entry feasibility row is refused by both regressors (shape 10 against 12); rows selected by name for the cost and time schemas give each regressor's answer on the frame bound to its own schema, and those frames read every column as the record means it |

## Left out

- Web routing, form parsing, templates, the static mount, the directory creation and the favicon handler (app/main.py:1-28, 51-53, 112-124): request and response glue.
- The form-repopulation dictionary `input_dict` (app/main.py:83-93): it only echoes the submitted values back to the page.
- Loading the three pickled models (app/main.py:30, app/model.py:7-9): the predictors are parameters of the model instead.
- The trained predictors' internals and the data-frame library: a predictor is an opaque function of the frame, and a frame is the row paired with its column names.
- All chart drawing in app/visualize.py, including its scaling of values into chart ranges. Only the handing of row entry 3 to the gauge is stated.
- The cache-busting timestamp (app/main.py:110) and the unsynchronised overwrite of the shared chart files: wall-clock time and concurrency.
- Float and integer coercion of the form values: every numeric field is the same opaque type `V`, so the model does not distinguish the integer fields (time, complexity) from the float fields.
- Predictors.PredictCost: does not model the `float()` conversion of the regressor's output, because predictor outputs are already reals here.
- Predictors.PredictTime: does not model the `float()` conversion of the regressor's output, for the same reason.
- Predictors.MaxOf: does not model floating-point comparison (NaN probabilities); probabilities are reals.
- Nothing in the code builds cost or time rows; the model reads them as the rows their schemas select by name (`Encode`).
- Handler.Predict: a Success covers only the prediction step; the handler then draws the charts (app/main.py:107), and a drawing failure (e.g. a classifier without `feature_importances_`, app/visualize.py:14) still fails the request uncaught.
