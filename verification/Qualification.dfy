/** The five-gate daily decision and the base score of a qualified node. */
module Qualification {
  import opened Records
  import opened ProbeSummary
  import opened Counting

  const HEALTHY_WINDOW := 15 * 60 * NANOS
  const FAILED_WINDOW := 30 * 60 * NANOS
  const OBSERVATION_WINDOW := 72 * 3600 * NANOS

  /** The moment (in nanoseconds) a date is judged at: now, or the last second of the date. */
  function Anchor(date: int, now: int): int {
    var endOfDay := (date * DAY + DAY - 1) * NANOS;
    if now < endOfDay then now else endOfDay
  }

  predicate Within(at: Stamp, anchor: int, window: int) {
    0 <= anchor - Instant(at) * NANOS <= window
  }

  /** Heartbeats of a node no older than `window` and not after the anchor. */
  function RecentBeat(nodeId: string, anchor: int, window: int): Heartbeat -> bool {
    (b: Heartbeat) => b.nodeId == nodeId && Within(b.at, anchor, window)
  }

  function CountBeats(beats: seq<Heartbeat>, nodeId: string, anchor: int, window: int): nat {
    Count(beats, RecentBeat(nodeId, anchor, window))
  }

  method CountHeartbeatsWithinWindow(beats: seq<Heartbeat>, nodeId: string, anchor: int, window: int) returns (count: nat)
    ensures count == CountBeats(beats, nodeId, anchor, window)
  {
    count := 0;
    var recent := RecentBeat(nodeId, anchor, window);
    for i := 0 to |beats|
      invariant count == Count(beats[..i], recent)
    {
      assert beats[..i + 1][..i] == beats[..i];
      if recent(beats[i]) {
        count := count + 1;
      }
    }
    assert beats[..|beats|] == beats;
  }

  /** What the decision reads besides the summary. */
  datatype Readings = Readings(
    healthyBeats: nat,
    recentBeats: nat,
    check: Option<Observation<Check>>,
    votingKey: Option<Observation<VotingKey>>,
    registeredAt: Option<int>,
    anchor: int)

  predicate Observed(r: Readings) {
    r.registeredAt.Some? && r.anchor >= r.registeredAt.value * NANOS + OBSERVATION_WINDOW
  }

  function ProbeFailure(s: Summary): Reason {
    if s.evidencePassed then NoReason
    else if s.insufficient != NoReason then InsufficientProbeEvidence
    else ProbeEvidenceFailed
  }

  function HeartbeatFailure(r: Readings): Reason {
    if r.healthyBeats >= 2 then NoReason
    else if r.recentBeats > 0 then HeartbeatStale
    else HeartbeatMissing
  }

  function HardwareFailure(r: Readings): Reason {
    match r.check
    case None => HardwareCheckMissing
    case Some(c) => if c.what.overallPassed then NoReason else HardwareCheckFailed
  }

  function VotingKeyFailure(r: Readings): Reason {
    match r.votingKey
    case None => VotingKeyEvidenceMissing
    case Some(v) =>
      if !v.what.present then VotingKeyNotPresent
      else if !v.what.validForEpoch then VotingKeyInvalid
      else NoReason
  }

  function ObservationFailure(r: Readings): Reason {
    if Observed(r) then NoReason else ObservationWindowIncomplete
  }

  function Listed(reason: Reason): seq<Reason> {
    if reason == NoReason then [] else [reason]
  }

  function Failures(s: Summary, r: Readings): seq<Reason> {
    Listed(ProbeFailure(s)) + Listed(HeartbeatFailure(r)) + Listed(HardwareFailure(r))
    + Listed(VotingKeyFailure(r)) + Listed(ObservationFailure(r))
  }

  function DecisionOf(s: Summary, r: Readings): Decision {
    Decision(
      s.nodeId, s.date, s.policyVersion,
      ProbeFailure(s) == NoReason, HeartbeatFailure(r) == NoReason, HardwareFailure(r) == NoReason, VotingKeyFailure(r) == NoReason,
      Failures(s, r) == [], Failures(s, r), s.insufficient)
  }

  method HardwareGate(r: Readings, failures: seq<Reason>) returns (passed: bool, out: seq<Reason>)
    ensures passed == (HardwareFailure(r) == NoReason) && out == failures + Listed(HardwareFailure(r))
  {
    passed, out := false, failures;
    if r.check.None? {
      out := out + [HardwareCheckMissing];
    } else if !r.check.value.what.overallPassed {
      out := out + [HardwareCheckFailed];
    } else {
      passed := true;
    }
  }

  method VotingKeyGate(r: Readings, failures: seq<Reason>) returns (passed: bool, out: seq<Reason>)
    ensures passed == (VotingKeyFailure(r) == NoReason) && out == failures + Listed(VotingKeyFailure(r))
  {
    passed, out := false, failures;
    if r.votingKey.None? {
      out := out + [VotingKeyEvidenceMissing];
    } else if !r.votingKey.value.what.present {
      out := out + [VotingKeyNotPresent];
    } else if !r.votingKey.value.what.validForEpoch {
      out := out + [VotingKeyInvalid];
    } else {
      passed := true;
    }
  }

  /** The gates in sequence, each adding its reason, as the portal evaluates them. */
  method ComputeQualifiedDecision(s: Summary, r: Readings) returns (d: Decision)
    ensures d == DecisionOf(s, r)
    ensures d.qualified <==>
      s.evidencePassed && r.healthyBeats >= 2 && CheckedWell(r.check) && KeyedWell(r.votingKey) && RegisteredLongEnough(r.registeredAt, r.anchor)
    ensures d.qualified <==> d.failures == []
  {
    var failures: seq<Reason> := [];
    var probePassed := s.evidencePassed;
    if !probePassed {
      failures := failures + [if s.insufficient != NoReason then InsufficientProbeEvidence else ProbeEvidenceFailed];
    }
    var heartbeatPassed := r.healthyBeats >= 2;
    if !heartbeatPassed {
      failures := failures + [if r.recentBeats > 0 then HeartbeatStale else HeartbeatMissing];
    }
    assert failures == Listed(ProbeFailure(s)) + Listed(HeartbeatFailure(r));
    var hardwarePassed, votingKeyPassed;
    hardwarePassed, failures := HardwareGate(r, failures);
    votingKeyPassed, failures := VotingKeyGate(r, failures);
    var observed := Observed(r);
    if !observed {
      failures := failures + [ObservationWindowIncomplete];
    }
    assert failures == Failures(s, r);
    d := Decision(s.nodeId, s.date, s.policyVersion, probePassed, heartbeatPassed, hardwarePassed, votingKeyPassed,
      probePassed && heartbeatPassed && hardwarePassed && votingKeyPassed && observed, failures, s.insufficient);
  }

  /** A node is qualified exactly when all five gates hold, and exactly when nothing is listed
      against it. */
  lemma QualifiedIffAllGates(s: Summary, beats: seq<Heartbeat>, r: Readings)
    requires r.healthyBeats == CountBeats(beats, s.nodeId, r.anchor, HEALTHY_WINDOW)
    ensures var d := DecisionOf(s, r);
      d.qualified <==>
        && s.evidencePassed
        && HeardTwice(beats, s.nodeId, r.anchor)
        && r.check.Some? && r.check.value.what.overallPassed
        && r.votingKey.Some? && r.votingKey.value.what.present && r.votingKey.value.what.validForEpoch
        && r.registeredAt.Some? && r.anchor >= (r.registeredAt.value + 259_200) * 1_000_000_000
    ensures DecisionOf(s, r).qualified <==> |DecisionOf(s, r).failures| == 0
  {
    BeatsInNumbers(beats, s.nodeId, r.anchor);
  }

  // ---- The decision in numbers ----

  /** Heartbeat `i` is the node's and at most so many seconds before the moment, in nanoseconds. */
  predicate HeardWithin(beats: seq<Heartbeat>, i: int, nodeId: string, anchor: int, seconds: int) {
    0 <= i < |beats| && beats[i].nodeId == nodeId
    && 0 <= anchor - Instant(beats[i].at) * 1_000_000_000 <= seconds * 1_000_000_000
  }

  /** Two different heartbeats within a quarter of an hour. */
  ghost predicate HeardTwice(beats: seq<Heartbeat>, nodeId: string, anchor: int) {
    exists i, j :: i < j && HeardWithin(beats, i, nodeId, anchor, 900) && HeardWithin(beats, j, nodeId, anchor, 900)
  }

  ghost predicate HeardOnce(beats: seq<Heartbeat>, nodeId: string, anchor: int) {
    exists i :: HeardWithin(beats, i, nodeId, anchor, 1800)
  }

  /** Registered 72 hours before the moment, in whole seconds. */
  predicate RegisteredLongEnough(registeredAt: Option<int>, anchor: int) {
    registeredAt.Some? && anchor >= (registeredAt.value + 259_200) * 1_000_000_000
  }

  predicate CheckedWell(check: Option<Observation<Check>>) {
    check.Some? && check.value.what.overallPassed
  }

  predicate KeyedWell(key: Option<Observation<VotingKey>>) {
    key.Some? && key.value.what.present && key.value.what.validForEpoch
  }

  /** Everything that is held against a node, in this order. */
  ghost function HeldAgainst(s: Summary, beats: seq<Heartbeat>, r: Readings): seq<Reason> {
    (if s.evidencePassed then [] else if s.insufficient != NoReason then [InsufficientProbeEvidence] else [ProbeEvidenceFailed])
    + (if HeardTwice(beats, s.nodeId, r.anchor) then []
       else if HeardOnce(beats, s.nodeId, r.anchor) then [HeartbeatStale] else [HeartbeatMissing])
    + (if r.check.None? then [HardwareCheckMissing] else if CheckedWell(r.check) then [] else [HardwareCheckFailed])
    + (if r.votingKey.None? then [VotingKeyEvidenceMissing]
       else if !r.votingKey.value.what.present then [VotingKeyNotPresent]
       else if KeyedWell(r.votingKey) then [] else [VotingKeyInvalid])
    + (if RegisteredLongEnough(r.registeredAt, r.anchor) then [] else [ObservationWindowIncomplete])
  }

  /** The decision for the beats that the store holds, with every duration in seconds: two heartbeats
      within 900, stale rather than missing with one within 1800, registered for 259200. */
  lemma DecisionInNumbers(s: Summary, beats: seq<Heartbeat>, r: Readings)
    requires r.healthyBeats == CountBeats(beats, s.nodeId, r.anchor, HEALTHY_WINDOW)
    requires r.recentBeats == CountBeats(beats, s.nodeId, r.anchor, FAILED_WINDOW)
    ensures var d := DecisionOf(s, r);
      && d.failures == HeldAgainst(s, beats, r)
      && (d.qualified <==>
           && s.evidencePassed && HeardTwice(beats, s.nodeId, r.anchor)
           && CheckedWell(r.check) && KeyedWell(r.votingKey) && RegisteredLongEnough(r.registeredAt, r.anchor))
      && d.probePassed == s.evidencePassed && d.heartbeatPassed == HeardTwice(beats, s.nodeId, r.anchor)
      && d.hardwarePassed == CheckedWell(r.check) && d.votingKeyPassed == KeyedWell(r.votingKey)
      && d.nodeId == s.nodeId && d.date == s.date && d.policyVersion == s.policyVersion && d.insufficient == s.insufficient
  {
    hide CountBeats;
    BeatsInNumbers(beats, s.nodeId, r.anchor);
  }

  lemma BeatsInNumbers(beats: seq<Heartbeat>, nodeId: string, anchor: int)
    ensures CountBeats(beats, nodeId, anchor, HEALTHY_WINDOW) >= 2 <==> HeardTwice(beats, nodeId, anchor)
    ensures CountBeats(beats, nodeId, anchor, FAILED_WINDOW) > 0 <==> HeardOnce(beats, nodeId, anchor)
    ensures HeardTwice(beats, nodeId, anchor) ==> HeardOnce(beats, nodeId, anchor)
  {
    var (healthy, recent) := (RecentBeat(nodeId, anchor, HEALTHY_WINDOW), RecentBeat(nodeId, anchor, FAILED_WINDOW));
    forall i | 0 <= i < |beats|
      ensures healthy(beats[i]) <==> HeardWithin(beats, i, nodeId, anchor, 900)
      ensures recent(beats[i]) <==> HeardWithin(beats, i, nodeId, anchor, 1800)
      ensures healthy(beats[i]) ==> recent(beats[i])
    {
    }
    TwoRecentBeats(beats, healthy);
    OneRecentBeat(beats, recent);
  }

  lemma OneRecentBeat(beats: seq<Heartbeat>, recent: Heartbeat -> bool)
    ensures Count(beats, recent) > 0 <==> exists i :: 0 <= i < |beats| && recent(beats[i])
  {
    var all := Passing(beats, recent);
    CountCounts(beats, recent);
    if |all| > 0 {
      var i :| i in all;
    }
    if i :| 0 <= i < |beats| && recent(beats[i]) {
      assert i in all;
    }
  }

  /** A node that passes the other gates qualifies exactly 72 hours after its registration, and a second
      before that only the observation window is held against it. */
  lemma ObservationBoundary(s: Summary, beats: seq<Heartbeat>, r: Readings, seconds: int)
    requires r.healthyBeats == CountBeats(beats, s.nodeId, r.anchor, HEALTHY_WINDOW)
    requires r.recentBeats == CountBeats(beats, s.nodeId, r.anchor, FAILED_WINDOW)
    requires s.evidencePassed && HeardTwice(beats, s.nodeId, r.anchor) && CheckedWell(r.check) && KeyedWell(r.votingKey)
    requires r.anchor == (seconds + 259_200) * 1_000_000_000
    ensures DecisionOf(s, r.(registeredAt := Some(seconds))).qualified
    ensures DecisionOf(s, r.(registeredAt := Some(seconds + 1))).failures == [ObservationWindowIncomplete]
    ensures !DecisionOf(s, r.(registeredAt := Some(seconds + 1))).qualified
  {
    hide CountBeats, DecisionOf, HeardTwice;
    DecisionInNumbers(s, beats, r.(registeredAt := Some(seconds)));
    DecisionInNumbers(s, beats, r.(registeredAt := Some(seconds + 1)));
  }

  /** The moment a date is judged at: now, or the last second of the date. */
  lemma AnchorInNumbers(date: int, now: int)
    ensures var end := (date * 86_400 + 86_399) * 1_000_000_000;
      Anchor(date, now) <= now && Anchor(date, now) <= end && Anchor(date, now) in {now, end}
  {
  }

  lemma TwoRecentBeats(beats: seq<Heartbeat>, recent: Heartbeat -> bool)
    ensures Count(beats, recent) >= 2 <==> exists i, j :: 0 <= i < j < |beats| && recent(beats[i]) && recent(beats[j])
  {
    var all := Passing(beats, recent);
    CountCounts(beats, recent);
    if |all| >= 2 {
      var i :| i in all;
      assert |all - {i}| >= 1;
      var j :| j in all - {i};
      assert i < j || j < i;
    }
    if i, j :| 0 <= i < j < |beats| && recent(beats[i]) && recent(beats[j]) {
      assert {i, j} <= all;
      assert |all - {i, j}| == |all| - |{i, j}|;
    }
  }

  // ---- Base score ----

  function Clamp(x: real): real {
    if x < 0.0 then 0.0 else if x > 100.0 then 100.0 else x
  }

  function BaseOf(s: Summary, d: Decision): Base {
    var availability := Clamp(30.0 * s.availabilityRatio);
    var finalization := Clamp(20.0 * s.finalizedRatio);
    var chainSync := Clamp(10.0 * s.chainRatio);
    var votingKey := if d.votingKeyPassed then 10.0 else 0.0;
    Base(s.nodeId, s.date, s.policyVersion, availability, finalization, chainSync, votingKey,
      availability + finalization + chainSync + votingKey)
  }

  /** The window in which the columns of every ranked node lie. */
  predicate InScoreWindow(b: Base) {
    && 29.7 <= b.availability <= 30.0
    && 19.0 <= b.finalization <= 20.0
    && 9.5 <= b.chainSync <= 10.0
    && b.votingKey == 10.0
    && b.total == b.availability + b.finalization + b.chainSync + b.votingKey
  }

  /** A qualified node scores between 68.2 and 70, and no clamp ever acts on its columns. */
  lemma QualifiedScoreWindow(policy: Policy, probes: Probes, nodeId: string, date: int, r: Readings)
    requires AllAcceptable(probes)
    requires DecisionOf(SummaryOf(policy, probes, nodeId, date), r).qualified
    ensures var s := SummaryOf(policy, probes, nodeId, date);
      var b := BaseOf(s, DecisionOf(s, r));
      && InScoreWindow(b) && 68.2 <= b.total <= 70.0
      && b.availability == 30.0 * s.availabilityRatio
      && b.finalization == 20.0 * s.finalizedRatio
      && b.chainSync == 10.0 * s.chainRatio
  {
    var s := SummaryOf(policy, probes, nodeId, date);
    SummaryCountsOrdered(policy, probes, nodeId, date);
    RatioBounds(s.up, s.valid);
    RatioBounds(s.finalizedWithin, s.finalizedMeasurable);
    RatioBounds(s.chainWithin, s.chainMeasurable);
  }

  /** The score of a node, from the counts: 30 for being up, 20 and 10 for the lags within their limits, 10
      for the voting key, each in proportion. */
  lemma ScoreInNumbers(policy: Policy, probes: Probes, nodeId: string, date: int, r: Readings)
    requires AllAcceptable(probes)
    requires DecisionOf(SummaryOf(policy, probes, nodeId, date), r).qualified
    ensures var s := SummaryOf(policy, probes, nodeId, date);
      var b := BaseOf(s, DecisionOf(s, r));
      && s.valid > 0 && s.up > 0
      && b.availability == 30.0 * (s.up as real / s.valid as real)
      && b.finalization == 20.0 * (s.finalizedWithin as real / s.up as real)
      && b.chainSync == 10.0 * (s.chainWithin as real / s.up as real)
      && b.votingKey == 10.0
      && b.total == b.availability + b.finalization + b.chainSync + b.votingKey
      && b.nodeId == nodeId && b.date == date && b.policyVersion == policy.version
  {
    hide SummaryOf, Clamp;
    QualifiedScoreWindow(policy, probes, nodeId, date, r);
    SummaryCountsOrdered(policy, probes, nodeId, date);
    EvidencePassedInNumbers(policy, probes, nodeId, date);
    RatiosShown(policy, probes, nodeId, date);
  }
}
