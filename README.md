# Burnout-risk dashboard: verified model of its rule core

This project models, in Dafny, the deterministic core of a burnout-risk dashboard
("Global Digital Empathy Engine"). The dashboard reads one row per employee per week
of behavioural telemetry. It checks that the table carries the 21 required columns.
It attaches a classifier's risk label and three class probabilities to each row. It
then derives the views it displays, and for the selected employee-week it evaluates
the just-in-time nudge rules.

Modules:

- `Activity` (activity.dfy): the weekly record (`RawRecord`: identity, 15 numeric and
  4 categorical features), the classifier's probability row, and the enriched `Record`.
- `FeatureContract` (feature_contract.dfy): the numeric and categorical feature lists
  in training order, the 21 required columns, and the missing-column check. The check
  returns every missing name, in required order, as a `SchemaError`.
- `Inference` (inference.dfy): attaching the classifier's outputs. `ActivityFrame`
  holds the source rows as one sequence and each of the four derived columns as a
  sequence of its own. `AttachPredictions` assigns those four columns in place.
  `Prepare` runs the schema check and attaches the outputs only when the check
  passes. How the assignments change the column header is modelled separately, on
  header values (`AddColumn`, `AddColumns`); the frame does not carry a header.
- `Selection` (selection.dfy): the filtered week view, the risk table sorted by
  descending high-risk probability, the high-risk export list, one employee's history
  by ascending week, and the selected week's snapshot row.
- `Nudges` (nudges.dfy): the three threshold rules, the fallback, the method that
  appends the matching nudges in rule order, and the texts listed for them. `NudgesFor` characterises a correct
  nudge list. `NudgesForUnique` proves that this characterisation admits exactly one
  list, so `DeriveNudges`' contract fixes its result completely.
- `Seqs` (seqs.dfy): the boolean-mask filter and the sort that the views use. The sort
  is specified only as an ordered permutation; nothing is claimed about ties.
- `Wrappers` (wrappers.dfy): `Option` and `Result`.

The Connection rule requires both `isolation_score > 0.75` and `prob_high > 0.30`, as
the code at app.py:199 does.

A consequence proved in `Selection.SnapshotRowExists`: the employee picker offers
only employees of the filtered view. Each such employee therefore has a row for the
selected week in their history. So, provided every row carries an `employee_id`, the "no
record found for this week" branch (app.py:162-164) cannot be reached from the
picker.

## Model

| member | source | states |
|---|---|---|
| `FeatureContract.RequiredColumnsShape` | app.py:43-63 | the required list has 21 names: the 15 numeric features, then the 4 categorical ones, then `employee_id`, `week_start_date` |
| `FeatureContract.MissingColumns` | app.py:63 | a name is reported exactly when it is required and absent from the header; the report keeps required order; it is empty exactly when all required columns are present |
| `FeatureContract.Validate` | app.py:63-66 | validation fails exactly when some required column is absent; the failure lists every absent required column and nothing else, in required order |
| `FeatureContract.MissingColumnIsReported` | app.py:63-66 | any one missing required column makes validation fail and is named in the error |
| `Inference.AddColumn` | app.py:77 | assigning a column keeps the existing header as a prefix, makes the name present, and adds no other name |
| `Inference.AddColumns` | app.py:77-80 | after assigning the derived columns all of them are present, the old header is a prefix, and no other name appears |
| `Inference.AddColumnsAppends` | app.py:77-80 | assigning distinct columns one after another yields the old header followed by exactly those new names it lacked, in assignment order |
| `Inference.DerivedColumnsAppended` | app.py:77-80 | after the four assignments the header is the old header followed by those of `predicted_label`, `prob_low`, `prob_medium`, `prob_high` it lacked, in that order |
| `Inference.AddColumnsIdempotent` | app.py:77-80 | assigning the derived columns a second time leaves the header unchanged |
| `Inference.AddColumnsKeepsSchema` | app.py:63-80 | a header that passed validation still passes after the derived columns are added |
| `Inference.EnrichKeepsRows` | app.py:76-80 | enrichment keeps the row count and every source field, and row i carries the classifier's i-th label and its three probabilities in class order |
| `Inference.EnrichIdempotent` | app.py:76-80 | re-enriching an enriched table with the same classifier outputs gives the same table |
| `Inference.ActivityFrame.constructor` | app.py:76 | a loaded table holds the given rows and no derived columns |
| `Inference.ActivityFrame.AttachPredictions` | app.py:76-80 | source rows are unchanged, every derived column gets one entry per row, and the table read row by row is the enriched table |
| `Inference.Prepare` | app.py:63-80 | the pipeline fails exactly when a required column is missing, with every missing column listed in required order; otherwise it yields the enriched rows |
| `Selection.FilterView` | app.py:99-104 | the view holds exactly the rows of the selected week, a selected country, a selected team and a selected label; each keeps its multiplicity, its relative order, and its field values |
| `Selection.RiskTable` | app.py:129 | the risk table is a permutation of the filtered rows' table columns, and high-risk probability never increases down the table |
| `Selection.HighRisk` | app.py:133 | the high-risk list holds exactly the table rows labelled 2, with multiplicity, in table order |
| `Selection.HighRiskListOfView` | app.py:129-133 | the exported list holds exactly the filtered view's label-2 rows, as table rows, and is ordered by descending high-risk probability |
| `Selection.EmployeeHistory` | app.py:155 | the history holds exactly the employee's rows of the whole table, with multiplicity, ordered by ascending week |
| `Selection.FirstOfWeek` | app.py:156-166 | the position found is the first history row of the selected week, or the end when there is none |
| `Selection.SelectedRow` | app.py:156-166 | the snapshot is absent exactly when the history has no row of the selected week; otherwise it is the first such row |
| `Selection.SnapshotRowExists` | app.py:152-166 | for an employee taken from the filtered view, the snapshot row exists and belongs to that employee |
| `Nudges.DeriveNudges` | app.py:188-204 | each rule's nudge is present exactly when the rule matches; the fallback is present exactly when none matches, and then alone; kinds appear in rule order; the result has 1 to 3 entries |
| `Nudges.MessageInjective` | app.py:192-204 | the four nudge texts are pairwise different |
| `Nudges.Messages` | app.py:192-207 | one text per nudge, and a kind's text is listed exactly when the kind is |
| `Nudges.RecommendedNudges` | app.py:188-204 | the listed texts are those of the unique correct nudge list: each rule's text exactly when the rule matches, the fallback text exactly when none matches and then alone, 1 to 3 texts |
| `Nudges.InRuleOrderDetermined` | app.py:190-200 | two lists in rule order with the same kinds are equal |
| `Nudges.NudgesForUnique` | app.py:188-204 | the rule table determines the nudge list uniquely |
| `Nudges.NudgesNeverEmpty` | app.py:202-204 | every correct nudge list is non-empty, has at most 3 entries, and contains the fallback only on its own |
| `Nudges.BoundaryThresholdsStrict` | app.py:191 | 20 after-hours messages, or a high-risk probability of exactly 0.35, never trigger the boundary nudge |
| `Nudges.MeetingThresholds` | app.py:195 | 3 back-to-back blocks trigger meeting recovery; exactly 20 meeting hours with fewer than 3 blocks do not |
| `Nudges.ConnectionNeedsRisk` | app.py:199 | high isolation without a high-risk probability above 0.30 does not trigger the connection nudge |
| `Nudges.BoundaryOnlyScenario` | app.py:190-204 | 25 after-hours messages at probability 0.40 with a light calendar and low isolation yield only the boundary nudge |
| `Nudges.MeetingOnlyScenario` | app.py:194-204 | 22 meeting hours with every other signal low yield only the meeting recovery nudge |
| `Nudges.ConnectionOnlyScenario` | app.py:198-204 | isolation 0.9 at probability 0.5 with nothing else yields only the connection nudge |
| `Nudges.AllRulesScenario` | app.py:188-204 | when all three rules match, the list is boundary, meeting recovery, connection, in that order |
| `Nudges.QuietScenario` | app.py:202-204 | with every threshold unmet the list is the fallback alone |

## Left out

- Rendering: page setup and titles (app.py:6, 22-23), the sidebar widgets (85, 88, 91, 94, 96), the metrics (109-115), the dividers (115, 141, 209), the risk table and download button (120, 130, 134-139), the detail heading, employee picker and trend chart (146, 153, 159-160), the JSON snapshot (169-181), the nudge heading and bullets (186, 206-207) and the expander (214-216).
- The early exits that halt the page: a failed schema check is a `Failure` result of `Prepare`, and empty selections are empty sequences or `None`.
- Loading the CSV and the pickled classifier, and their caches (app.py:11-38): file I/O.
- The classifier (app.py:68-74): opaque foreign code. Its label column and probability matrix are inputs to `Prepare` and `AttachPredictions`, one entry per row. The selection of the feature matrix X (app.py:68) only feeds it and is not modelled.
- Inference.ActivityFrame: carries no column header, so neither `AttachPredictions` nor `Prepare` states the header after the assignments; that effect is proved on header values by `AddColumnsAppends` and `DerivedColumnsAppended`.
- Inference.Prepare: its outputs are taken as given before the schema check, whereas the page calls the classifier only after the check passes. It does not model the classifier raising an error.
- Probability consistency: the three probabilities are not assumed to sum to 1, and the label is not assumed to be their argmax. The dashboard only echoes them.
- The option lists of the filters and of the employee picker (app.py:87-96, 152): widget contents. The chosen week, countries, teams, labels and employee are parameters.
- The KPI counts and rounded means (app.py:110-113): floating-point averaging for display.
- CSV serialisation and UTF-8 encoding of the export (app.py:136): library code.
- Missing values in the identity columns: `employee_id` is a `string` and `week_start_date` an `int`, so neither can be blank. In app.py a blank id is read as NaN, offered by the picker, and matches no row at app.py:155, which reaches the warning at app.py:162-164; the model does not capture that path.
- Floating point: probabilities, hours and scores are Dafny `real`s, so rounding and NaN (which compares false in every rule) are not modelled. Message and contact counts are `int`s.
- `week_start_date` is modelled as an integer day ordinal. This assumes the data file writes its week dates in a form whose sort order is chronological (ISO `YYYY-MM-DD`, for instance); app.py itself only compares and sorts the column as read, so with any other date format the ascending history order of app.py:155 would be string order, which this model does not capture.
- Selection.RiskTable: claims no order among rows with equal `prob_high`, because the dataframe's default sort is not stable.
- Selection.EmployeeHistory: claims no order among rows of the same week, for the same reason. `SelectedRow` is the first row of the week in whatever order the history has.
