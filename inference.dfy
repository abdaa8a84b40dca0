/**
 * Attaching the classifier's outputs to the activity table. The classifier itself
 * is opaque: its label column and its probability matrix (one row per input row)
 * are given to this model as values.
 */
module Inference {
  import opened Activity
  import opened Wrappers
  import opened FeatureContract
  import opened Seqs

  /** The four columns the classifier's outputs are written to, in order. */
  const DerivedColumns: seq<string> := ["predicted_label", "prob_low", "prob_medium", "prob_high"]

  /**
   * The header after assigning column `name`: an existing column is overwritten in
   * place, a new one is appended at the end.
   */
  function AddColumn(columns: seq<string>, name: string): (r: seq<string>)
    ensures name in r
    ensures |columns| <= |r| && r[..|columns|] == columns
    ensures forall c :: c in r ==> c in columns || c == name
  {
    if name in columns then columns else columns + [name]
  }

  /** The header after assigning each of `names` in turn. */
  function AddColumns(columns: seq<string>, names: seq<string>): (r: seq<string>)
    ensures forall c :: c in names ==> c in r
    ensures |columns| <= |r| && r[..|columns|] == columns
    ensures forall c :: c in r <==> c in columns || c in names
    decreases |names|
  {
    if names == [] then columns
    else
      var r := AddColumns(AddColumn(columns, names[0]), names[1..]);
      assert names == [names[0]] + names[1..];
      r
  }

  /**
   * The enriched table: row i keeps its source fields and gets the label and the
   * three class probabilities the classifier produced for row i.
   */
  function Enrich(rows: seq<RawRecord>, labels: seq<RiskLabel>, probas: seq<ClassProbabilities>): (records: seq<Record>)
    requires |labels| == |rows| && |probas| == |rows|
  {
    seq(|rows|, i requires 0 <= i < |rows| =>
      Record(rows[i], labels[i], probas[i].low, probas[i].medium, probas[i].high))
  }

  /** The source fields of each enriched row. */
  function SourceRows(records: seq<Record>): (rows: seq<RawRecord>)
  {
    seq(|records|, i requires 0 <= i < |records| => records[i].raw)
  }

  /**
   * Enrichment is positional and never touches a source field: row i of the result
   * is row i of the input with the classifier's i-th outputs attached.
   */
  lemma EnrichKeepsRows(rows: seq<RawRecord>, labels: seq<RiskLabel>, probas: seq<ClassProbabilities>)
    requires |labels| == |rows| && |probas| == |rows|
    ensures |Enrich(rows, labels, probas)| == |rows|
    ensures SourceRows(Enrich(rows, labels, probas)) == rows
    ensures forall i :: 0 <= i < |rows| ==>
      var r := Enrich(rows, labels, probas)[i];
      r.predictedLabel == labels[i] &&
      r.probLow == probas[i].low && r.probMedium == probas[i].medium && r.probHigh == probas[i].high
  {
  }

  /**
   * Re-running inference on an enriched table with the same classifier outputs
   * overwrites the derived columns with identical values.
   */
  lemma EnrichIdempotent(rows: seq<RawRecord>, labels: seq<RiskLabel>, probas: seq<ClassProbabilities>)
    requires |labels| == |rows| && |probas| == |rows|
    ensures |SourceRows(Enrich(rows, labels, probas))| == |rows|
    ensures Enrich(SourceRows(Enrich(rows, labels, probas)), labels, probas) == Enrich(rows, labels, probas)
  {
    EnrichKeepsRows(rows, labels, probas);
  }

  /** Assigning the derived columns again leaves the header as it was. */
  lemma {:induction false} AddColumnsIdempotent(columns: seq<string>, names: seq<string>)
    ensures AddColumns(AddColumns(columns, names), names) == AddColumns(columns, names)
  {
    var once := AddColumns(columns, names);
    AddColumnsPresent(once, names);
  }

  /** Assigning columns that already exist leaves the header unchanged. */
  lemma {:induction false} AddColumnsPresent(columns: seq<string>, names: seq<string>)
    requires forall c :: c in names ==> c in columns
    ensures AddColumns(columns, names) == columns
    decreases |names|
  {
    if names != [] {
      assert names[0] in names;
      assert AddColumn(columns, names[0]) == columns;
      forall c | c in names[1..] ensures c in columns {
        assert c in names;
      }
      AddColumnsPresent(columns, names[1..]);
    }
  }

  /** Attaching the derived columns never makes a validated table fail validation. */
  lemma AddColumnsKeepsSchema(columns: seq<string>, names: seq<string>)
    requires Validate(columns).Success?
    ensures Validate(AddColumns(columns, names)).Success?
  {
    var r := AddColumns(columns, names);
    assert MissingColumns(columns) == [];
    forall c | c in RequiredColumns ensures c in r {
      assert c in columns;
    }
    assert MissingColumns(r) == [];
  }

  /**
   * The activity table: the source rows as one sequence and each of the four
   * derived columns, once assigned, as a sequence of its own. The frame carries no
   * header; how assigning the columns changes it is `AddColumnsAppends`.
   */
  class ActivityFrame {
    var rows: seq<RawRecord>
    var predictedLabel: seq<RiskLabel>
    var probLow: seq<real>
    var probMedium: seq<real>
    var probHigh: seq<real>

    /** Every derived column has one entry per row. */
    ghost predicate Enriched()
      reads this
    {
      && |predictedLabel| == |rows|
      && |probLow| == |rows|
      && |probMedium| == |rows|
      && |probHigh| == |rows|
    }

    /** A freshly loaded table, without derived columns. */
    constructor (rows: seq<RawRecord>)
      ensures this.rows == rows
      ensures predictedLabel == [] && probLow == [] && probMedium == [] && probHigh == []
    {
      this.rows := rows;
      predictedLabel, probLow, probMedium, probHigh := [], [], [], [];
    }

    /** The table read row by row. */
    function Records(): (records: seq<Record>)
      reads this
      requires Enriched()
    {
      seq(|rows|, i requires 0 <= i < |rows| && Enriched() reads this =>
        Record(rows[i], predictedLabel[i], probLow[i], probMedium[i], probHigh[i]))
    }

    /**
     * Writes the label column and the three probability columns (the columns of the
     * probability matrix, in class order). Source rows are left alone.
     */
    method AttachPredictions(labels: seq<RiskLabel>, probas: seq<ClassProbabilities>)
      requires |labels| == |rows| && |probas| == |rows|
      modifies this
      ensures rows == old(rows)
      ensures Enriched()
      ensures Records() == Enrich(rows, labels, probas)
    {
      predictedLabel := labels;
      probLow := seq(|probas|, i requires 0 <= i < |probas| => probas[i].low);
      probMedium := seq(|probas|, i requires 0 <= i < |probas| => probas[i].medium);
      probHigh := seq(|probas|, i requires 0 <= i < |probas| => probas[i].high);
      forall i | 0 <= i < |rows| ensures Records()[i] == Enrich(rows, labels, probas)[i] {
      }
    }
  }

  /**
   * Assigning distinct columns one after another appends, in assignment order,
   * exactly those the header did not already have.
   */
  lemma {:induction false} AddColumnsAppends(columns: seq<string>, names: seq<string>)
    requires Distinct(names)
    ensures AddColumns(columns, names) == columns + Filter(names, c => c !in columns)
    decreases |names|
  {
    if names != [] {
      var rest := names[1..];
      assert Distinct(rest);
      AddColumnsAppends(AddColumn(columns, names[0]), rest);
      AppendOne(columns, names[0], rest);
    }
  }

  /** One step of `AddColumnsAppends`: assigning `name` first, then `rest`. */
  lemma AppendOne(columns: seq<string>, name: string, rest: seq<string>)
    requires name !in rest
    ensures var first := AddColumn(columns, name);
      first + Filter(rest, c => c !in first) == columns + Filter([name] + rest, c => c !in columns)
  {
    var first := AddColumn(columns, name);
    var keep := c => c !in columns;
    FilterAgrees(rest, c => c !in first, keep);
    FilterCons(name, rest, keep);
    if keep(name) {
      assert first == columns + [name];
      ConcatAssoc(columns, [name], Filter(rest, keep));
    }
  }

  /**
   * The header after the four assignments: the old header, then those derived
   * columns it did not already have, in assignment order.
   */
  lemma DerivedColumnsAppended(header: seq<string>)
    ensures AddColumns(header, DerivedColumns) == header + Filter(DerivedColumns, c => c !in header)
  {
    AddColumnsAppends(header, DerivedColumns);
  }

  /**
   * The pipeline up to scoring: validate the header, and only if every required
   * column is present attach the classifier's outputs to the rows.
   */
  method Prepare(columns: seq<string>, rows: seq<RawRecord>, labels: seq<RiskLabel>, probas: seq<ClassProbabilities>)
    returns (result: Result<seq<Record>, SchemaError>)
    requires |labels| == |rows| && |probas| == |rows|
    ensures result.Failure? <==> exists c :: c in RequiredColumns && c !in columns
    ensures result.Failure? ==> forall c :: c in result.error.missing <==> c in RequiredColumns && c !in columns
    ensures result.Failure? ==> SubsequenceOf(result.error.missing, RequiredColumns)
    ensures result.Success? ==> result.value == Enrich(rows, labels, probas)
  {
    var checked := Validate(columns);
    if checked.Failure? {
      return Failure(checked.error);
    }
    var frame := new ActivityFrame(rows);
    frame.AttachPredictions(labels, probas);
    result := Success(frame.Records());
  }
}
