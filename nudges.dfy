/**
 * The just-in-time nudge rules: three independent threshold rules checked in a
 * fixed order, every matching rule kept, and a fallback when none matched.
 */
module Nudges {
  import opened Activity

  datatype Nudge = Boundary | MeetingRecovery | Connection | NoIntervention

  /** Position of each kind in the rule order. */
  function Rank(n: Nudge): nat
  {
    match n
    case Boundary => 0
    case MeetingRecovery => 1
    case Connection => 2
    case NoIntervention => 3
  }

  /** The texts the dashboard shows, one per kind. */
  const BoundaryText: string :=
    "📌 **Boundary Nudge:** Frequent after-hours activity detected. Protect one evening this week by scheduling non-urgent work into your normal hours."
  const MeetingRecoveryText: string :=
    " **Meeting Recovery Nudge:** Calendar load is high. Convert one 60-min meeting into 45 mins to create recovery time between meetings."
  const ConnectionText: string :=
    " **Connection Nudge:** Collaboration appears narrow. Consider pairing with a teammate or joining a cross-functional sync to stay connected."
  const NoInterventionText: string :=
    " **No strong intervention needed:** Maintain breaks, healthy boundaries, and steady collaboration routines."

  /** The text shown for a kind. */
  function Message(n: Nudge): string
  {
    match n
    case Boundary => BoundaryText
    case MeetingRecovery => MeetingRecoveryText
    case Connection => ConnectionText
    case NoIntervention => NoInterventionText
  }

  /** Rule 1: many after-hours messages and a high-risk probability above 0.35. */
  predicate BoundaryRule(row: Record)
  {
    row.raw.afterHoursMsgsCount > 20 && row.probHigh > 0.35
  }

  /** Rule 2: at least three back-to-back blocks, or more than 20 meeting hours. */
  predicate MeetingRecoveryRule(row: Record)
  {
    row.raw.backToBackMeetingBlocks >= 3 || row.raw.totalMeetingHours > 20.0
  }

  /** Rule 3: an isolation score above 0.75 together with a high-risk probability above 0.30. */
  predicate ConnectionRule(row: Record)
  {
    row.raw.isolationScore > 0.75 && row.probHigh > 0.30
  }

  predicate AnyRule(row: Record)
  {
    BoundaryRule(row) || MeetingRecoveryRule(row) || ConnectionRule(row)
  }

  /** Kinds appear in rule order, each at most once. */
  predicate InRuleOrder(ns: seq<Nudge>)
  {
    forall i, j :: 0 <= i < j < |ns| ==> Rank(ns[i]) < Rank(ns[j])
  }

  /**
   * What a correct nudge list for `row` is: each rule's kind is present exactly when
   * the rule matches, the fallback exactly when no rule matches, in rule order.
   */
  predicate NudgesFor(row: Record, ns: seq<Nudge>)
  {
    && (Boundary in ns <==> BoundaryRule(row))
    && (MeetingRecovery in ns <==> MeetingRecoveryRule(row))
    && (Connection in ns <==> ConnectionRule(row))
    && (NoIntervention in ns <==> !AnyRule(row))
    && InRuleOrder(ns)
  }

  /** Evaluates the rules for one row, appending each matching kind in turn. */
  method DeriveNudges(row: Record) returns (nudges: seq<Nudge>)
    ensures NudgesFor(row, nudges)
    ensures 1 <= |nudges| <= 3
    ensures NoIntervention in nudges ==> nudges == [NoIntervention]
  {
    nudges := [];
    if row.raw.afterHoursMsgsCount > 20 && row.probHigh > 0.35 {
      nudges := nudges + [Boundary];
    }
    if row.raw.backToBackMeetingBlocks >= 3 || row.raw.totalMeetingHours > 20.0 {
      nudges := nudges + [MeetingRecovery];
    }
    if row.raw.isolationScore > 0.75 && row.probHigh > 0.30 {
      nudges := nudges + [Connection];
    }
    if nudges == [] {
      nudges := nudges + [NoIntervention];
    }
  }

  /** The four texts have different lengths. */
  lemma MessageLength(n: Nudge)
    ensures |Message(n)| == match n
      case Boundary => 145
      case MeetingRecovery => 133
      case Connection => 139
      case NoIntervention => 107
  {
    match n
    case Boundary => assert |BoundaryText| == 145;
    case MeetingRecovery => assert |MeetingRecoveryText| == 133;
    case Connection => assert |ConnectionText| == 139;
    case NoIntervention => assert |NoInterventionText| == 107;
  }

  /** Different kinds are shown with different texts. */
  lemma MessageInjective(a: Nudge, b: Nudge)
    ensures Message(a) == Message(b) ==> a == b
  {
    MessageLength(a);
    MessageLength(b);
  }

  /** The texts shown, one per nudge, in order: a kind's text is listed exactly when the kind is. */
  function Messages(ns: seq<Nudge>): (texts: seq<string>)
    ensures |texts| == |ns|
    ensures forall n :: Message(n) in texts <==> n in ns
  {
    var texts := seq(|ns|, i requires 0 <= i < |ns| => Message(ns[i]));
    forall n ensures Message(n) in texts <==> n in ns {
      if Message(n) in texts {
        var i :| 0 <= i < |texts| && texts[i] == Message(n);
        MessageInjective(ns[i], n);
      }
      if n in ns {
        var i :| 0 <= i < |ns| && ns[i] == n;
        assert texts[i] == Message(n);
      }
    }
    texts
  }

  /** Whether the rule (or, for the fallback, the absence of every rule) selects kind `n`. */
  predicate Fires(row: Record, n: Nudge)
  {
    match n
    case Boundary => BoundaryRule(row)
    case MeetingRecovery => MeetingRecoveryRule(row)
    case Connection => ConnectionRule(row)
    case NoIntervention => !AnyRule(row)
  }

  /**
   * The nudge texts listed under the snapshot: the texts of the one correct nudge
   * list, so a kind's text exactly when its rule matches (the fallback's exactly
   * when none does), one to three texts, and the fallback's text alone when listed.
   */
  method RecommendedNudges(row: Record) returns (texts: seq<string>)
    ensures exists ns :: NudgesFor(row, ns) && texts == Messages(ns)
    ensures forall n :: Message(n) in texts <==> Fires(row, n)
    ensures 1 <= |texts| <= 3
    ensures !AnyRule(row) ==> |texts| == 1
  {
    var nudges := DeriveNudges(row);
    texts := Messages(nudges);
    forall n ensures Message(n) in texts <==> Fires(row, n) {
      assert Message(n) in texts <==> n in nudges;
      FiresListed(row, nudges, n);
    }
  }

  /** In a correct nudge list, a kind is listed exactly when it fires. */
  lemma FiresListed(row: Record, ns: seq<Nudge>, n: Nudge)
    requires NudgesFor(row, ns)
    ensures n in ns <==> Fires(row, n)
  {
  }

  /** Two lists in rule order with the same kinds are the same list. */
  lemma {:induction false} InRuleOrderDetermined(a: seq<Nudge>, b: seq<Nudge>)
    requires InRuleOrder(a) && InRuleOrder(b)
    requires forall n :: n in a <==> n in b
    ensures a == b
    decreases |a| + |b|
  {
    if a != [] {
      assert a[0] in b;
    }
    if b != [] {
      assert b[0] in a;
    }
    if a != [] && b != [] {
      assert a[0] in b && b[0] in a;
      FirstHasLeastRank(a);
      FirstHasLeastRank(b);
      assert a[0] == b[0];
      forall n ensures n in a[1..] <==> n in b[1..] {
        if n in a[1..] {
          var k :| 0 <= k < |a[1..]| && a[1..][k] == n;
          assert Rank(a[0]) < Rank(a[k + 1]);
          assert n in b;
        }
        if n in b[1..] {
          var k :| 0 <= k < |b[1..]| && b[1..][k] == n;
          assert Rank(b[0]) < Rank(b[k + 1]);
          assert n in a;
        }
      }
      InRuleOrderDetermined(a[1..], b[1..]);
      assert a == [a[0]] + a[1..] && b == [b[0]] + b[1..];
    }
  }

  /** The head of a list in rule order has the lowest rank in it. */
  lemma FirstHasLeastRank(a: seq<Nudge>)
    requires InRuleOrder(a) && a != []
    ensures forall n :: n in a ==> Rank(a[0]) <= Rank(n)
  {
    forall n | n in a ensures Rank(a[0]) <= Rank(n) {
      var k :| 0 <= k < |a| && a[k] == n;
      if k > 0 {
        assert Rank(a[0]) < Rank(a[k]);
      }
    }
  }

  /** The rules determine the nudge list completely: there is only one correct answer. */
  lemma NudgesForUnique(row: Record, a: seq<Nudge>, b: seq<Nudge>)
    requires NudgesFor(row, a) && NudgesFor(row, b)
    ensures a == b
  {
    InRuleOrderDetermined(a, b);
  }

  /** A correct nudge list is never empty, and the fallback never shares it. */
  lemma {:induction false} NudgesNeverEmpty(row: Record, ns: seq<Nudge>)
    requires NudgesFor(row, ns)
    ensures ns != []
    ensures NoIntervention in ns ==> ns == [NoIntervention]
    ensures |ns| <= 3
  {
    if !AnyRule(row) {
      assert NudgesFor(row, [NoIntervention]);
      NudgesForUnique(row, ns, [NoIntervention]);
    } else {
      var expected := (if BoundaryRule(row) then [Boundary] else [])
        + (if MeetingRecoveryRule(row) then [MeetingRecovery] else [])
        + (if ConnectionRule(row) then [Connection] else []);
      assert NudgesFor(row, expected);
      NudgesForUnique(row, ns, expected);
    }
  }

  /** The after-hours and probability thresholds of the boundary rule are strict. */
  lemma BoundaryThresholdsStrict(row: Record, ns: seq<Nudge>)
    requires NudgesFor(row, ns)
    requires row.raw.afterHoursMsgsCount == 20 || row.probHigh == 0.35
    ensures Boundary !in ns
  {
  }

  /** Three back-to-back blocks already trigger meeting recovery; exactly 20 hours do not. */
  lemma MeetingThresholds(row: Record, ns: seq<Nudge>)
    requires NudgesFor(row, ns)
    ensures row.raw.backToBackMeetingBlocks == 3 ==> MeetingRecovery in ns
    ensures row.raw.backToBackMeetingBlocks < 3 && row.raw.totalMeetingHours == 20.0 ==> MeetingRecovery !in ns
  {
  }

  /** Isolation alone is not enough for the connection nudge: the probability must exceed 0.30. */
  lemma ConnectionNeedsRisk(row: Record, ns: seq<Nudge>)
    requires NudgesFor(row, ns)
    requires row.raw.isolationScore > 0.75 && row.probHigh <= 0.30
    ensures Connection !in ns
  {
  }

  /** Heavy after-hours messaging at elevated risk, light calendar, well connected: boundary only. */
  lemma BoundaryOnlyScenario(row: Record, ns: seq<Nudge>)
    requires NudgesFor(row, ns)
    requires row.raw.afterHoursMsgsCount == 25 && row.probHigh == 0.40
    requires row.raw.backToBackMeetingBlocks == 0 && row.raw.totalMeetingHours == 5.0
    requires row.raw.isolationScore == 0.1
    ensures ns == [Boundary]
  {
    assert NudgesFor(row, [Boundary]);
    NudgesForUnique(row, ns, [Boundary]);
  }

  /** Over 20 meeting hours with every other signal low: meeting recovery only. */
  lemma MeetingOnlyScenario(row: Record, ns: seq<Nudge>)
    requires NudgesFor(row, ns)
    requires row.raw.afterHoursMsgsCount == 5 && row.raw.totalMeetingHours == 22.0
    requires row.raw.backToBackMeetingBlocks == 1 && row.raw.isolationScore == 0.1
    requires row.probHigh == 0.1
    ensures ns == [MeetingRecovery]
  {
    assert NudgesFor(row, [MeetingRecovery]);
    NudgesForUnique(row, ns, [MeetingRecovery]);
  }

  /** Isolated and at elevated risk, nothing else: connection only. */
  lemma ConnectionOnlyScenario(row: Record, ns: seq<Nudge>)
    requires NudgesFor(row, ns)
    requires row.raw.afterHoursMsgsCount == 0 && row.raw.totalMeetingHours == 0.0
    requires row.raw.backToBackMeetingBlocks == 0
    requires row.raw.isolationScore == 0.9 && row.probHigh == 0.5
    ensures ns == [Connection]
  {
    assert NudgesFor(row, [Connection]);
    NudgesForUnique(row, ns, [Connection]);
  }

  /** Every rule fires: all three nudges, in rule order, and no fallback. */
  lemma AllRulesScenario(row: Record, ns: seq<Nudge>)
    requires NudgesFor(row, ns)
    requires BoundaryRule(row) && MeetingRecoveryRule(row) && ConnectionRule(row)
    ensures ns == [Boundary, MeetingRecovery, Connection]
  {
    assert NudgesFor(row, [Boundary, MeetingRecovery, Connection]);
    NudgesForUnique(row, ns, [Boundary, MeetingRecovery, Connection]);
  }

  /** All thresholds unmet: only the fallback. */
  lemma QuietScenario(row: Record, ns: seq<Nudge>)
    requires NudgesFor(row, ns)
    requires row.raw.afterHoursMsgsCount == 0 && row.raw.totalMeetingHours == 0.0
    requires row.raw.backToBackMeetingBlocks == 0 && row.raw.isolationScore == 0.0
    requires row.probHigh == 0.05
    ensures ns == [NoIntervention]
  {
    assert NudgesFor(row, [NoIntervention]);
    NudgesForUnique(row, ns, [NoIntervention]);
  }
}
