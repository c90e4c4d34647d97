/** Stored decisions rest on stored readings: the checks, voting keys, heartbeats and registration times
    that the store holds. */
module Gradings {
  import opened Records
  import opened Counting
  import opened Tables
  import opened ProbeSummary
  import opened Qualification
  import opened PortalState
  import opened Pipeline
  import opened Portal
  import opened Views

  function EndOfDate(date: int): int {
    (date * DAY + DAY - 1) * NANOS
  }

  /** What the store still shows of the readings of a decision: the latest check and voting key, if the
      time texts that name the date denote moments of it; an anchor within the date; at least the
      heartbeats that were counted; and the registration time. */
  ghost predicate ReadingsHold(s: State, k: NodeDate, r: Readings) {
    && (AlignedFor(s.checks, k.0, k.1) ==> IsLatest(s.checks, k.0, k.1, r.check))
    && (AlignedFor(s.evidence.votingKeys, k.0, k.1) ==> IsLatest(s.evidence.votingKeys, k.0, k.1, r.votingKey))
    && r.anchor <= EndOfDate(k.1)
    && r.healthyBeats <= CountBeats(s.heartbeats, k.0, r.anchor, HEALTHY_WINDOW)
    && r.recentBeats <= CountBeats(s.heartbeats, k.0, r.anchor, FAILED_WINDOW)
    && (r.registeredAt.Some? ==> k.0 in s.nodes && s.nodes[k.0].registeredAt == r.registeredAt)
  }

  /** A stored decision is that of its stored summary and of readings that the store holds. */
  ghost predicate Grounded(s: State, k: NodeDate) {
    k in s.derived.decisions ==>
      k in s.derived.summaries && exists r :: ReadingsHold(s, k, r) && s.derived.decisions[k] == DecisionOf(s.derived.summaries[k], r)
  }

  ghost predicate GroundedExcept(s: State, keys: set<NodeDate>) {
    forall k :: k !in keys ==> Grounded(s, k)
  }

  // ---- What keeps readings ----

  ghost predicate LatestKept<X(!new)>(m: map<string, Observation<X>>, n: map<string, Observation<X>>, k: NodeDate) {
    AlignedFor(n, k.0, k.1) ==>
      AlignedFor(m, k.0, k.1) && forall found :: IsLatest(m, k.0, k.1, found) ==> IsLatest(n, k.0, k.1, found)
  }

  ghost predicate BeatsKept(before: seq<Heartbeat>, after: seq<Heartbeat>) {
    forall n, anchor, window :: CountBeats(before, n, anchor, window) <= CountBeats(after, n, anchor, window)
  }

  /** Everything that decisions were read from is kept, except under `keys`. */
  ghost predicate SourcesKept(s: State, t: State, keys: set<NodeDate>) {
    && (forall k :: k !in keys ==> LatestKept(s.checks, t.checks, k) && LatestKept(s.evidence.votingKeys, t.evidence.votingKeys, k))
    && BeatsKept(s.heartbeats, t.heartbeats)
    && RegistrationsKept(s.nodes, t.nodes)
  }

  lemma GroundedKept(s: State, t: State, keys: set<NodeDate>)
    requires GroundedExcept(s, {}) && SourcesKept(s, t, keys)
    requires t.derived.summaries == s.derived.summaries && t.derived.decisions == s.derived.decisions
    ensures GroundedExcept(t, keys)
  {
    hide DecisionOf, CountBeats, IsLatest, AlignedFor, SourcesKept;
    forall k | k !in keys && k in t.derived.decisions
      ensures Grounded(t, k)
    {
      assert Grounded(s, k);
      var r :| ReadingsHold(s, k, r) && s.derived.decisions[k] == DecisionOf(s.derived.summaries[k], r);
      ReadingsKept(s, t, keys, k, r);
    }
  }

  lemma ReadingsKept(s: State, t: State, keys: set<NodeDate>, k: NodeDate, r: Readings)
    requires SourcesKept(s, t, keys) && k !in keys && ReadingsHold(s, k, r)
    ensures ReadingsHold(t, k, r)
  {
    hide CountBeats, IsLatest, AlignedFor;
    assert LatestKept(s.checks, t.checks, k) && LatestKept(s.evidence.votingKeys, t.evidence.votingKeys, k);
  }

  lemma NothingChanged(s: State, t: State, keys: set<NodeDate>)
    requires t.checks == s.checks && t.evidence.votingKeys == s.evidence.votingKeys
    requires multiset(t.heartbeats) == multiset(s.heartbeats) && RegistrationsKept(s.nodes, t.nodes)
    ensures SourcesKept(s, t, keys)
  {
    hide RegistrationsKept, IsLatest, AlignedFor, CountBeats;
    SameBeatsKept(s.heartbeats, t.heartbeats);
  }

  lemma SameBeatsKept(before: seq<Heartbeat>, after: seq<Heartbeat>)
    requires multiset(before) == multiset(after)
    ensures BeatsKept(before, after)
  {
    forall n, anchor, window
      ensures CountBeats(before, n, anchor, window) <= CountBeats(after, n, anchor, window)
    {
      CountUnordered(before, after, RecentBeat(n, anchor, window));
    }
  }

  lemma BeatsGrow(before: seq<Heartbeat>, b: Heartbeat)
    ensures BeatsKept(before, before + [b])
  {
    forall n, anchor, window
      ensures CountBeats(before, n, anchor, window) <= CountBeats(before + [b], n, anchor, window)
    {
      CountAppend(before, [b], RecentBeat(n, anchor, window));
    }
  }

  /** An observation that arrives disturbs only the readings of its own node and UTC date, where the
      time texts are aligned. */
  lemma LatestKeptElsewhere<X(!new)>(m: map<string, Observation<X>>, e: Observation<X>, k: NodeDate)
    requires e.ref !in m && k != (e.nodeId, UtcDate(e.observedAt))
    ensures LatestKept(m, m[e.ref := e], k)
  {
    hide IsLatest;
    var n := m[e.ref := e];
    if AlignedFor(n, k.0, k.1) {
      assert n[e.ref] == e;
      assert AlignedFor(m, k.0, k.1) by {
        assert forall ref :: ref in m ==> n[ref] == m[ref];
      }
      forall found | IsLatest(m, k.0, k.1, found)
        ensures IsLatest(n, k.0, k.1, found)
      {
        LatestUnaffected(m, e, k.0, k.1, found);
      }
    }
  }

  lemma SameLatestKept<X(!new)>(m: map<string, Observation<X>>, k: NodeDate)
    ensures LatestKept(m, m, k)
  {
  }

  // ---- Accepted events ----

  function DueKeys(b: Rebuild): set<NodeDate> {
    if b.Artifacts? then {(b.nodeId, b.date)} else {}
  }

  lemma CheckKeepsSources(c: Config, s: State, r: CheckRequest, now: nat)
    requires CheckError(c, s, r, now).None?
    ensures SourcesKept(s, WithCheck(s, r), {(r.nodeId, DateOf(r.checkedAt))})
  {
    hide LatestKept, BeatsKept;
    var t := WithCheck(s, r);
    var e := t.checks[r.eventId];
    SameBeatsKept(s.heartbeats, t.heartbeats);
    forall k | k != (r.nodeId, DateOf(r.checkedAt))
      ensures LatestKept(s.checks, t.checks, k) && LatestKept(s.evidence.votingKeys, t.evidence.votingKeys, k)
    {
      LatestKeptElsewhere(s.checks, e, k);
      SameLatestKept(s.evidence.votingKeys, k);
    }
  }

  lemma KeyKeepsSources(c: Config, s: State, r: EvidenceRequest, now: nat)
    requires r.VotingKeyRequest? && EvidenceError(c, s, r, now).None?
    ensures SourcesKept(s, s.(evidence := WithEvidence(s.evidence, r)), {(r.header.nodeId, DateOf(r.header.observedAt))})
  {
    hide LatestKept, BeatsKept;
    var t := s.(evidence := WithEvidence(s.evidence, r));
    var e := t.evidence.votingKeys[r.header.ref];
    SameBeatsKept(s.heartbeats, t.heartbeats);
    forall k | k != (r.header.nodeId, DateOf(r.header.observedAt))
      ensures LatestKept(s.checks, t.checks, k) && LatestKept(s.evidence.votingKeys, t.evidence.votingKeys, k)
    {
      LatestKeptElsewhere(s.evidence.votingKeys, e, k);
      SameLatestKept(s.checks, k);
    }
  }

  lemma BeatKeepsSources(c: Config, s: State, r: HeartbeatRequest, now: nat)
    requires HeartbeatError(c, s, r, now).None?
    ensures SourcesKept(s, WithHeartbeat(c, s, r), {(r.nodeId, DateOf(r.at))})
  {
    hide LatestKept, BeatsKept;
    BeatsGrow(s.heartbeats, Heartbeat(r.nodeId, r.at.t, r.sequence));
    forall k: NodeDate
      ensures LatestKept(s.checks, s.checks, k) && LatestKept(s.evidence.votingKeys, s.evidence.votingKeys, k)
    {
      SameLatestKept(s.checks, k);
      SameLatestKept(s.evidence.votingKeys, k);
    }
  }

  lemma OtherEventKeepsSources(c: Config, s: State, q: Request, now: nat)
    requires RequestError(c, s, q, now).None?
    requires !q.Beat? && !q.SendCheck? && !(q.SendEvidence? && q.evidence.VotingKeyRequest?)
    requires RegistrationsKept(s.nodes, Noted(c, s, q, now).nodes)
    ensures SourcesKept(s, Noted(c, s, q, now), DueKeys(RebuildOf(q)))
  {
    hide RegistrationsKept, SourcesKept, HeartbeatError, CheckError, ProbeError, TelemetryError, EnrollError;
    NothingChanged(s, Noted(c, s, q, now), DueKeys(RebuildOf(q)));
  }

  lemma EventKeepsSources(c: Config, s: State, q: Request, now: nat)
    requires RequestError(c, s, q, now).None?
    requires RegistrationsKept(s.nodes, Noted(c, s, q, now).nodes)
    ensures SourcesKept(s, Noted(c, s, q, now), DueKeys(RebuildOf(q)))
  {
    hide RegistrationsKept, SourcesKept, HeartbeatError, CheckError, ProbeError, TelemetryError, EnrollError, EvidenceError, WithEvidence;
    match q
    case Beat(r) => BeatKeepsSources(c, s, r, now);
    case SendCheck(r) => CheckKeepsSources(c, s, r, now);
    case SendEvidence(r) =>
      if r.VotingKeyRequest? {
        KeyKeepsSources(c, s, r, now);
      } else {
        OtherEventKeepsSources(c, s, q, now);
      }
    case _ => OtherEventKeepsSources(c, s, q, now);
  }

  // ---- Rebuilding ----

  lemma AnchorInDate(date: int, now: int)
    ensures Anchor(date, now) <= EndOfDate(date)
  {
  }

  lemma FreshReadingsHold(s: State, nodeId: string, date: int, now: int, looks: ArtifactLooks)
    requires IsLatest(s.checks, nodeId, date, looks.check) && IsLatest(s.evidence.votingKeys, nodeId, date, looks.votingKey)
    ensures ReadingsHold(s, (nodeId, date), ReadingsOf(s, nodeId, date, now, looks))
  {
    hide IsLatest, CountBeats;
    AnchorInDate(date, now);
  }

  /** Grading the node settles the decision that was due. */
  lemma GradeGrounds(c: Config, s: State, nodeId: string, date: int, now: int, looks: ArtifactLooks)
    requires GroundedExcept(s, {(nodeId, date)})
    requires IsLatest(s.checks, nodeId, date, looks.check) && IsLatest(s.evidence.votingKeys, nodeId, date, looks.votingKey)
    ensures GroundedExcept(s.(derived := GradeStep(c, s, nodeId, date, now, looks)), {})
  {
    hide IsLatest, CountBeats, DecisionOf, SummaryOf, AlignedFor, ReadingsOf;
    var t := s.(derived := GradeStep(c, s, nodeId, date, now, looks));
    var key := (nodeId, date);
    FreshReadingsHold(s, nodeId, date, now, looks);
    forall k
      ensures Grounded(t, k)
    {
      if k == key {
        assert ReadingsHold(t, k, ReadingsOf(s, nodeId, date, now, looks));
      } else {
        assert Grounded(s, k);
        SameGrounds(s, t, k);
      }
    }
  }

  lemma SameGrounds(s: State, t: State, k: NodeDate)
    requires Grounded(s, k)
    requires t.checks == s.checks && t.evidence.votingKeys == s.evidence.votingKeys && t.heartbeats == s.heartbeats && t.nodes == s.nodes
    requires k in t.derived.decisions ==>
      && k in s.derived.decisions && t.derived.decisions[k] == s.derived.decisions[k]
      && (k in s.derived.summaries ==> k in t.derived.summaries && t.derived.summaries[k] == s.derived.summaries[k])
    ensures Grounded(t, k)
  {
    hide IsLatest, CountBeats, DecisionOf, AlignedFor;
    if k in t.derived.decisions {
      var r :| ReadingsHold(s, k, r) && s.derived.decisions[k] == DecisionOf(s.derived.summaries[k], r);
      assert ReadingsHold(t, k, r);
    }
  }

  lemma RebuildGrounds(c: Config, s: State, b: Rebuild, env: Env)
    requires GroundedExcept(s, DueKeys(b)) && LooksFound(c, s, b, env)
    ensures GroundedExcept(Rebuilt(c, s, b, env), {})
  {
    hide IsLatest, GradeStep, RankLooksFound, RewardsFound, EligibilityStep, RankingStep, Grounded;
    match b
    case Nothing =>
    case Artifacts(nodeId, date) =>
      GradeGrounds(c, s, nodeId, date, env.now, env.looks);
      var v := GradeStep(c, s, nodeId, date, env.now, env.looks);
      RankingStepKeepsRest(c.nominalPool, v, RegistrationsOf(s.nodes), date, env.looks.ranks);
      SameDecisions(s.(derived := v), Rebuilt(c, s, b, env));
    case WholeRanking(date) =>
      RankingStepKeepsRest(c.nominalPool, s.derived, RegistrationsOf(s.nodes), date, env.looks.ranks);
      SameDecisions(s, Rebuilt(c, s, b, env));
    case OnlyRewards(date) =>
      StepKeepsRest(c.nominalPool, s.derived, date, RankingsOn(s.derived, date), env.looks.ranks.rewards);
      SameDecisions(s, Rebuilt(c, s, b, env));
  }

  lemma SameDecisions(s: State, t: State)
    requires GroundedExcept(s, {}) && t == s.(derived := t.derived)
    requires t.derived.summaries == s.derived.summaries && t.derived.decisions == s.derived.decisions
    ensures GroundedExcept(t, {})
  {
    hide Grounded;
    forall k
      ensures Grounded(t, k)
    {
      assert Grounded(s, k);
      SameGrounds(s, t, k);
    }
  }

  // ---- What a grounded decision means ----

  lemma TwoBeats(beats: seq<Heartbeat>, n: string, anchor: int, window: int)
    requires CountBeats(beats, n, anchor, window) >= 2
    ensures exists i, j :: 0 <= i < j < |beats| && RecentBeat(n, anchor, window)(beats[i]) && RecentBeat(n, anchor, window)(beats[j])
  {
    TwoRecentBeats(beats, RecentBeat(n, anchor, window));
  }

  /** Two stored heartbeats of a node no older than 900 seconds and not after the anchor. */
  ghost predicate HasTwoBeats(s: State, n: string, anchor: int) {
    exists i, j :: 0 <= i < j < |s.heartbeats|
      && RecentBeat(n, anchor, 900 * 1_000_000_000)(s.heartbeats[i]) && RecentBeat(n, anchor, 900 * 1_000_000_000)(s.heartbeats[j])
  }

  /** Registered for at least 72 hours before the anchor. */
  predicate ObservedBy(s: State, n: string, anchor: int) {
    n in s.nodes && s.nodes[n].registeredAt.Some? && (s.nodes[n].registeredAt.value + 259_200) * 1_000_000_000 <= anchor
  }

  /** For one anchor within the date: the hardware and voting-key gates are those of the latest stored
      check and key, a passed heartbeat gate rests on two stored heartbeats, and a qualified node passed
      all gates and was registered long enough. */
  ghost predicate DecisionShown(s: State, k: NodeDate)
    requires k in s.derived.decisions && k in s.derived.summaries
  {
    var d := s.derived.decisions[k];
    exists check, votingKey, anchor ::
      && (AlignedFor(s.checks, k.0, k.1) ==> IsLatest(s.checks, k.0, k.1, check))
      && (AlignedFor(s.evidence.votingKeys, k.0, k.1) ==> IsLatest(s.evidence.votingKeys, k.0, k.1, votingKey))
      && anchor <= EndOfDate(k.1)
      && GatesShown(s, k, check, votingKey, anchor)
  }

  ghost predicate GatesShown(s: State, k: NodeDate, check: Option<Observation<Check>>, votingKey: Option<Observation<VotingKey>>, anchor: int)
    requires k in s.derived.decisions && k in s.derived.summaries
  {
    var d := s.derived.decisions[k];
    && d.probePassed == s.derived.summaries[k].evidencePassed
    && d.hardwarePassed == (check.Some? && check.value.what.overallPassed)
    && d.votingKeyPassed == (votingKey.Some? && votingKey.value.what.present && votingKey.value.what.validForEpoch)
    && (d.heartbeatPassed ==> HasTwoBeats(s, k.0, anchor))
    && (d.qualified ==> d.probePassed && d.heartbeatPassed && d.hardwarePassed && d.votingKeyPassed && ObservedBy(s, k.0, anchor))
    && (d.probePassed && d.heartbeatPassed && d.hardwarePassed && d.votingKeyPassed && !d.qualified ==> ObservationWindowIncomplete in d.failures)
  }

  lemma GroundedIsShown(s: State, k: NodeDate)
    requires Grounded(s, k) && k in s.derived.decisions
    ensures k in s.derived.summaries && DecisionShown(s, k)
  {
    hide IsLatest, CountBeats, AlignedFor, HasTwoBeats;
    var r :| ReadingsHold(s, k, r) && s.derived.decisions[k] == DecisionOf(s.derived.summaries[k], r);
    GatesOfReadings(s.derived.summaries[k], r);
    if HeartbeatFailure(r) == NoReason {
      CountedBeats(s, k, r);
    }
    assert GatesShown(s, k, r.check, r.votingKey, r.anchor);
  }

  lemma CountedBeats(s: State, k: NodeDate, r: Readings)
    requires ReadingsHold(s, k, r) && HeartbeatFailure(r) == NoReason
    ensures HasTwoBeats(s, k.0, r.anchor)
  {
    TwoBeats(s.heartbeats, k.0, r.anchor, HEALTHY_WINDOW);
  }

  lemma GatesOfReadings(m: Summary, r: Readings)
    ensures var d := DecisionOf(m, r);
      && d.probePassed == m.evidencePassed
      && d.heartbeatPassed == (HeartbeatFailure(r) == NoReason)
      && d.hardwarePassed == (r.check.Some? && r.check.value.what.overallPassed)
      && d.votingKeyPassed == (r.votingKey.Some? && r.votingKey.value.what.present && r.votingKey.value.what.validForEpoch)
      && (d.qualified <==> d.probePassed && d.heartbeatPassed && d.hardwarePassed && d.votingKeyPassed && Observed(r))
      && (!Observed(r) ==> ObservationWindowIncomplete in d.failures)
  {
  }
}
