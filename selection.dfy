/**
 * The views the dashboard derives from the enriched table: the filtered week view,
 * the risk table sorted by high-risk probability, the high-risk export list, one
 * employee's history and the row shown as that employee's weekly snapshot.
 */
module Selection {
  import opened Activity
  import opened Seqs
  import opened Wrappers

  /** The filter mask: the selected week, a selected country and team, a selected label. */
  predicate InView(r: Record, week: Week, countries: seq<string>, teams: seq<string>, labels: seq<int>)
  {
    && r.raw.weekStartDate == week
    && r.raw.country in countries
    && r.raw.team in teams
    && r.predictedLabel in labels
  }

  /**
   * The filtered view: exactly the rows the mask accepts, each as often as in the
   * table, in their original relative order, unchanged.
   */
  function FilterView(df: seq<Record>, week: Week, countries: seq<string>, teams: seq<string>, labels: seq<int>)
    : (fdf: seq<Record>)
    ensures forall x :: x in fdf <==> x in df && InView(x, week, countries, teams, labels)
    ensures forall x :: multiset(fdf)[x] == if InView(x, week, countries, teams, labels) then multiset(df)[x] else 0
    ensures SubsequenceOf(fdf, df)
  {
    Filter(df, (r: Record) => InView(r, week, countries, teams, labels))
  }

  /** A row of the risk table: the columns the table shows. */
  datatype RiskRow = RiskRow(
    employeeId: string,
    role: string,
    team: string,
    country: string,
    weekStartDate: Week,
    predictedLabel: RiskLabel,
    probHigh: real,
    afterHoursMsgsCount: int,
    totalMeetingHours: real,
    backToBackMeetingBlocks: int,
    isolationScore: real)

  function Project(r: Record): RiskRow
  {
    RiskRow(r.raw.employeeId, r.raw.role, r.raw.team, r.raw.country, r.raw.weekStartDate,
            r.predictedLabel, r.probHigh, r.raw.afterHoursMsgsCount, r.raw.totalMeetingHours,
            r.raw.backToBackMeetingBlocks, r.raw.isolationScore)
  }

  /** The table columns of every row, in order. */
  function ProjectAll(rs: seq<Record>): (rows: seq<RiskRow>)
  {
    seq(|rs|, i requires 0 <= i < |rs| => Project(rs[i]))
  }

  /** Descending order on high-risk probability. */
  predicate HigherRisk(a: RiskRow, b: RiskRow)
  {
    a.probHigh >= b.probHigh
  }

  /** Ascending order on week. */
  predicate NoLaterWeek(a: Record, b: Record)
  {
    a.raw.weekStartDate <= b.raw.weekStartDate
  }

  lemma HigherRiskIsPreorder()
    ensures TotalPreorder(HigherRisk)
  {
  }

  lemma NoLaterWeekIsPreorder()
    ensures TotalPreorder(NoLaterWeek)
  {
  }

  /**
   * The risk table: the filtered rows (projected to the table columns), reordered
   * so that high-risk probability never increases down the table.
   */
  function RiskTable(fdf: seq<Record>): (table: seq<RiskRow>)
    ensures multiset(table) == multiset(ProjectAll(fdf))
    ensures forall i, j :: 0 <= i < j < |table| ==> table[i].probHigh >= table[j].probHigh
  {
    HigherRiskIsPreorder();
    SortBy(ProjectAll(fdf), HigherRisk)
  }

  /** The downloadable list: the risk-table rows labelled high risk, in table order. */
  function HighRisk(table: seq<RiskRow>): (high: seq<RiskRow>)
    ensures forall x :: x in high <==> x in table && x.predictedLabel == HighRiskLabel
    ensures forall x :: multiset(high)[x] == if x.predictedLabel == HighRiskLabel then multiset(table)[x] else 0
    ensures SubsequenceOf(high, table)
  {
    Filter(table, (row: RiskRow) => row.predictedLabel == HighRiskLabel)
  }

  /**
   * The high-risk list built from a filtered view holds exactly that view's label-2
   * rows (as table rows, with multiplicity) and is itself ordered by descending
   * high-risk probability.
   */
  lemma HighRiskListOfView(fdf: seq<Record>)
    ensures forall x :: (multiset(HighRisk(RiskTable(fdf)))[x] ==
      if x.predictedLabel == HighRiskLabel then multiset(ProjectAll(fdf))[x] else 0)
    ensures forall i, j :: 0 <= i < j < |HighRisk(RiskTable(fdf))| ==>
      HighRisk(RiskTable(fdf))[i].probHigh >= HighRisk(RiskTable(fdf))[j].probHigh
  {
    var table := RiskTable(fdf);
    assert SortedBy(table, HigherRisk);
    FilterKeepsSorted(table, (row: RiskRow) => row.predictedLabel == HighRiskLabel, HigherRisk);
  }

  /**
   * One employee's history: all of that employee's rows in the whole table (not
   * only the filtered view), ordered by ascending week.
   */
  function EmployeeHistory(df: seq<Record>, employee: string): (history: seq<Record>)
    ensures forall x :: x in history <==> x in df && x.raw.employeeId == employee
    ensures forall x :: multiset(history)[x] == if x.raw.employeeId == employee then multiset(df)[x] else 0
    ensures forall i, j :: 0 <= i < j < |history| ==> history[i].raw.weekStartDate <= history[j].raw.weekStartDate
  {
    NoLaterWeekIsPreorder();
    var own := Filter(df, (r: Record) => r.raw.employeeId == employee);
    var history := SortBy(own, NoLaterWeek);
    assert forall x :: x in history <==> x in multiset(own);
    history
  }

  /** Position of the first row of `week` in `history`, or |history| if there is none. */
  function FirstOfWeek(history: seq<Record>, week: Week): (k: nat)
    ensures k <= |history|
    ensures forall j :: 0 <= j < k ==> history[j].raw.weekStartDate != week
    ensures k < |history| ==> history[k].raw.weekStartDate == week
    decreases |history|
  {
    if history == [] then 0
    else if history[0].raw.weekStartDate == week then 0
    else 1 + FirstOfWeek(history[1..], week)
  }

  /**
   * The snapshot row: the first history row of the selected week, or None when the
   * employee has no row for that week.
   */
  function SelectedRow(history: seq<Record>, week: Week): (row: Option<Record>)
    ensures row.None? <==> forall x :: x in history ==> x.raw.weekStartDate != week
    ensures row.Some? ==> row.value.raw.weekStartDate == week
    ensures row.Some? ==> exists k :: (0 <= k < |history| && history[k] == row.value &&
      forall j :: 0 <= j < k ==> history[j].raw.weekStartDate != week)
  {
    var k := FirstOfWeek(history, week);
    if k < |history| then Some(history[k]) else None
  }

  /**
   * An employee picked from the filtered view always has a snapshot row for the
   * selected week: that employee's row in the view is in their history.
   */
  lemma SnapshotRowExists(df: seq<Record>, week: Week, countries: seq<string>, teams: seq<string>, labels: seq<int>, x: Record)
    requires x in FilterView(df, week, countries, teams, labels)
    ensures SelectedRow(EmployeeHistory(df, x.raw.employeeId), week).Some?
    ensures SelectedRow(EmployeeHistory(df, x.raw.employeeId), week).value.raw.employeeId == x.raw.employeeId
  {
    var history := EmployeeHistory(df, x.raw.employeeId);
    assert x in history;
    var row := SelectedRow(history, week);
    assert row.value in history;
  }
}
