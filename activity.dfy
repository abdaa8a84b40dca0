/**
 * One employee's behavioural telemetry for one week, as read from the weekly
 * activity table, and the same row once the classifier's outputs are attached.
 */
module Activity {

  /** A week, identified by its start date (as a day ordinal; later weeks are larger). */
  type Week = int

  /** The classifier's risk label: 0 = low, 1 = medium, 2 = high. */
  type RiskLabel = x: int | 0 <= x <= 2

  const HighRiskLabel: RiskLabel := 2

  /** A row of the input table: identity, the 15 numeric and the 4 categorical features. */
  datatype RawRecord = RawRecord(
    employeeId: string,
    weekStartDate: Week,
    // numeric features
    totalEmailsSent: int,
    totalEmailsReceived: int,
    avgEmailReplyTimeMin: real,
    totalSlackMsgsSent: int,
    afterHoursMsgsCount: int,
    numMeetings: int,
    totalMeetingHours: real,
    backToBackMeetingBlocks: int,
    uniqueContactsCount: int,
    degreeCentrality: real,
    betweennessCentrality: real,
    isolationScore: real,
    zAfterHoursWithinCountry: real,
    zReplyTimeWithinCountry: real,
    zMeetingLoadWithinCountry: real,
    // categorical features
    role: string,
    team: string,
    country: string,
    cultureCluster: string)

  /** One row of the classifier's probability matrix, in class order low, medium, high. */
  datatype ClassProbabilities = ClassProbabilities(low: real, medium: real, high: real)

  /** An input row with the four derived columns attached. */
  datatype Record = Record(
    raw: RawRecord,
    predictedLabel: RiskLabel,
    probLow: real,
    probMedium: real,
    probHigh: real)
}
