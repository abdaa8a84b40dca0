/**
 * The columns the classifier was trained on and the check that the input table
 * carries every one of them (plus the identity columns) before anything is scored.
 */
module FeatureContract {
  import opened Seqs
  import opened Wrappers

  /** Numeric model inputs, in training order. */
  const NumFeatures: seq<string> := [
    "total_emails_sent",
    "total_emails_received",
    "avg_email_reply_time_min",
    "total_slack_msgs_sent",
    "after_hours_msgs_count",
    "num_meetings",
    "total_meeting_hours",
    "back_to_back_meeting_blocks",
    "unique_contacts_count",
    "degree_centrality",
    "betweenness_centrality",
    "isolation_score",
    "z_after_hours_within_country",
    "z_reply_time_within_country",
    "z_meeting_load_within_country"
  ]

  /** Categorical model inputs, in training order. */
  const CatFeatures: seq<string> := ["role", "team", "country", "culture_cluster"]

  /** Every column the dashboard needs, in the order they are checked. */
  const RequiredColumns: seq<string> := NumFeatures + CatFeatures + ["employee_id", "week_start_date"]

  /** The schema failure: every required column the input lacks. */
  datatype SchemaError = SchemaError(missing: seq<string>)

  /**
   * The required columns absent from `columns`, in required order.
   */
  function MissingColumns(columns: seq<string>): (missing: seq<string>)
    ensures forall c :: c in missing <==> c in RequiredColumns && c !in columns
    ensures SubsequenceOf(missing, RequiredColumns)
    ensures missing == [] <==> forall c :: c in RequiredColumns ==> c in columns
  {
    Filter(RequiredColumns, c => c !in columns)
  }

  /** Schema validation: fails, listing every missing column, exactly when one is missing. */
  function Validate(columns: seq<string>): (r: Result<(), SchemaError>)
    ensures r.Failure? <==> exists c :: c in RequiredColumns && c !in columns
    ensures r.Failure? ==> forall c :: c in r.error.missing <==> c in RequiredColumns && c !in columns
    ensures r.Failure? ==> SubsequenceOf(r.error.missing, RequiredColumns)
  {
    var missing := MissingColumns(columns);
    if missing != [] then Failure(SchemaError(missing)) else Success(())
  }

  /** The required list has 21 names: 15 numeric, 4 categorical and the two identity columns. */
  lemma RequiredColumnsShape()
    ensures |RequiredColumns| == 21
    ensures RequiredColumns[..15] == NumFeatures
    ensures RequiredColumns[15..19] == CatFeatures
    ensures RequiredColumns[19] == "employee_id" && RequiredColumns[20] == "week_start_date"
  {
  }

  /** A table that lacks any one required column is refused, and that column is named. */
  lemma MissingColumnIsReported(columns: seq<string>, c: string)
    requires c in RequiredColumns && c !in columns
    ensures Validate(columns).Failure?
    ensures c in Validate(columns).error.missing
  {
  }
}
