/** Every run keeps the store well formed and its views in agreement; every store it passes through
    can be saved and loaded back. */
module Reachable {
  import opened Orders
  import opened Records
  import opened Texts
  import opened Tables
  import opened ProbeSummary
  import opened Qualification
  import opened RankingRules
  import opened AntiConcentration
  import opened Rewards
  import opened PortalState
  import opened Pipeline
  import opened Agreement
  import opened Portal
  import opened Views
  import opened Gradings

  ghost predicate StateOk(c: Config, seed: map<string, Node>, s: State) {
    WellFormed(seed, s) && ViewsOk(c, s) && GroundedExcept(s, {})
  }

  // ---- Noting an event keeps the store well formed ----

  lemma RowStored<K(!new), V>(m: map<K, V>, key: V -> K, node: V -> string, nodes: set<string>, v: V)
    requires TableOk(m, key, node, nodes) && node(v) in nodes
    ensures TableOk(m[key(v) := v], key, node, nodes)
  {
  }

  lemma RowAppended<V>(log: seq<V>, node: V -> string, nodes: set<string>, v: V)
    requires LogOk(log, node, nodes) && node(v) in nodes
    ensures LogOk(log + [v], node, nodes)
  {
  }

  lemma ChallengeNoted(c: Config, seed: map<string, Node>, s: State, nodeId: string, now: nat)
    requires WellFormed(seed, s) && IssueError(s, nodeId).None?
    ensures WellFormed(seed, WithChallenge(c, s, nodeId, now))
  {
    hide TableOk, LogOk, EvidenceOk, DerivedOk;
    RowStored(s.challenges, ChallengeKey, ChallengeNode, seed.Keys, NewChallenge(c, nodeId, now));
  }

  lemma ChallengeHasKey(seed: map<string, Node>, s: State, id: string)
    requires WellFormed(seed, s) && id in s.challenges
    ensures s.challenges[id].id == id && s.challenges[id].nodeId in seed
  {
    hide NodesOk, LogsOk, EvidenceOk, DerivedOk;
    assert ChallengeKey(s.challenges[id]) == id && ChallengeNode(s.challenges[id]) in seed.Keys;
  }

  lemma NodeChanged(seed: map<string, Node>, nodes: map<string, Node>, n: string, after: Node)
    requires NodesOk(seed, nodes) && n in nodes && after.nodeId == n && SameSeed(after, nodes[n])
    ensures NodesOk(seed, nodes[n := after])
  {
  }

  lemma EnrollmentNoted(c: Config, seed: map<string, Node>, s: State, r: EnrollRequest, now: nat)
    requires WellFormed(seed, s) && EnrollError(s, r, now).None?
    ensures WellFormed(seed, WithEnrollment(c, s, r, now))
    ensures RegistrationsKept(s.nodes, WithEnrollment(c, s, r, now).nodes)
  {
    ChallengeHasKey(seed, s, r.challengeId);
    hide TableOk, LogOk, EvidenceOk, DerivedOk;
    NodeChanged(seed, s.nodes, r.nodeId, Enrolled(c, s.nodes[r.nodeId], r.fingerprint.value, r.publicKey, now));
    RowStored(s.challenges, ChallengeKey, ChallengeNode, seed.Keys, s.challenges[r.challengeId].(usedAt := Some(Seconds(now))));
  }

  lemma HeartbeatNoted(c: Config, seed: map<string, Node>, s: State, r: HeartbeatRequest, now: nat)
    requires WellFormed(seed, s) && HeartbeatError(c, s, r, now).None?
    ensures WellFormed(seed, WithHeartbeat(c, s, r))
    ensures RegistrationsKept(s.nodes, WithHeartbeat(c, s, r).nodes)
  {
    hide TableOk, LogOk, EvidenceOk, DerivedOk;
    NodeChanged(seed, s.nodes, r.nodeId, WithHeartbeat(c, s, r).nodes[r.nodeId]);
    RowAppended(s.heartbeats, HeartbeatNode, seed.Keys, Heartbeat(r.nodeId, r.at.t, r.sequence));
  }

  lemma CheckNoted(c: Config, seed: map<string, Node>, s: State, r: CheckRequest, now: nat)
    requires WellFormed(seed, s) && CheckError(c, s, r, now).None?
    ensures WellFormed(seed, WithCheck(s, r))
  {
    hide TableOk, LogOk, EvidenceOk, DerivedOk;
    RowStored(s.checks, RefKey, ObservedNode, seed.Keys, Observation(r.eventId, r.nodeId, r.checkedAt.t, Check(r.overall.value)));
  }

  lemma ProbeStored(c: Config, seed: map<string, Node>, s: State, r: ProbeRequest, now: nat)
    requires WellFormed(seed, s) && ProbeError(c, s, r, now).None?
    ensures WellFormed(seed, WithProbe(s, r))
  {
    hide TableOk, LogOk, EvidenceOk, DerivedOk;
    RowStored(s.probes, RefKey, ObservedNode, seed.Keys, Observation(r.probeId, r.nodeId, r.observedAt.t, ProbeOf(r)));
  }

  lemma EvidenceStored(c: Config, seed: map<string, Node>, s: State, r: EvidenceRequest, now: nat)
    requires WellFormed(seed, s) && EvidenceError(c, s, r, now).None?
    ensures WellFormed(seed, s.(evidence := WithEvidence(s.evidence, r)))
  {
    hide TableOk, LogOk, DerivedOk;
    var e, h := s.evidence, r.header;
    var after := WithEvidence(e, r);
    assert h.nodeId in seed.Keys;
    match r
    case VotingKeyRequest(_, _, _, _) => RowStored(e.votingKeys, RefKey, ObservedNode, seed.Keys, after.votingKeys[h.ref]);
    case GroupRequest(_, _, _) => RowStored(e.groups, RefKey, ObservedNode, seed.Keys, after.groups[h.ref]);
    case PlacementRequest(_, _, _, _, _) => RowStored(e.placements, RefKey, ObservedNode, seed.Keys, after.placements[h.ref]);
    case DomainRequest(_, _) => RowStored(e.domains, RefKey, ObservedNode, seed.Keys, after.domains[h.ref]);
    case PlaneRequest(_, _, _, _) => RowStored(e.planes, RefKey, ObservedNode, seed.Keys, after.planes[h.ref]);
  }

  lemma NotedWellFormed(c: Config, seed: map<string, Node>, s: State, q: Request, now: nat)
    requires WellFormed(seed, s) && RequestError(c, s, q, now).None?
    ensures WellFormed(seed, Noted(c, s, q, now)) && RegistrationsKept(s.nodes, Noted(c, s, q, now).nodes)
  {
    hide WellFormed, WithEvidence, WithEnrollment, WithHeartbeat;
    hide HeartbeatError, CheckError, ProbeError, EvidenceError, TelemetryError, EnrollError, IssueError;
    match q
    case Issue(nodeId) => ChallengeNoted(c, seed, s, nodeId, now);
    case Enroll(r) => EnrollmentNoted(c, seed, s, r, now);
    case Beat(r) => HeartbeatNoted(c, seed, s, r, now);
    case SendCheck(r) => CheckNoted(c, seed, s, r, now);
    case SendProbe(r) => ProbeStored(c, seed, s, r, now);
    case SendEvidence(r) => EvidenceStored(c, seed, s, r, now);
    case _ => assert Noted(c, s, q, now) == s;
  }

  // ---- What the event leaves to be rebuilt ----

  ghost predicate PendingFor(c: Config, s: State, b: Rebuild) {
    match b
    case Nothing => ViewsOk(c, s)
    case Artifacts(nodeId, date) => ViewsPending(c, s, {(nodeId, date)}, {}, {})
    case WholeRanking(date) => ViewsPending(c, s, {}, {date}, {date})
    case OnlyRewards(date) => ViewsPending(c, s, {}, {}, {date})
  }

  lemma KeyedTables(v: Derived, nodes: set<string>)
    requires DerivedOk(v, nodes)
    ensures TablesKeyed(v) && TableOk(v.bases, BaseKey, BaseNode, nodes)
  {
  }

  lemma AcceptedProbeIsAcceptable(c: Config, s: State, r: ProbeRequest, now: nat)
    requires ProbeError(c, s, r, now).None?
    ensures Acceptable(ProbeOf(r)) && r.probeId !in s.probes
  {
  }

  lemma ProbeLeaves(c: Config, seed: map<string, Node>, s: State, r: ProbeRequest, now: nat)
    requires StateOk(c, seed, s) && ProbeError(c, s, r, now).None?
    ensures ViewsPending(c, WithProbe(s, r), {(r.nodeId, DateOf(r.observedAt))}, {}, {})
  {
    hide ViewsPending, WellFormed, NotNegative, Acceptable;
    AcceptedProbeIsAcceptable(c, s, r, now);
    ProbeNoted(c, s, Observation(r.probeId, r.nodeId, r.observedAt.t, ProbeOf(r)));
  }

  lemma GroupLeaves(c: Config, s: State, r: EvidenceRequest, now: nat)
    requires ViewsOk(c, s) && TablesKeyed(s.derived) && r.GroupRequest? && EvidenceError(c, s, r, now).None?
    ensures ViewsPending(c, s.(evidence := WithEvidence(s.evidence, r)), {}, {}, {DateOf(r.header.observedAt)})
  {
    hide ViewsPending, AlignedOn, StillFound, Trim, ReviewOf;
    var after := WithEvidence(s.evidence, r);
    var date := DateOf(r.header.observedAt);
    forall d | d != date && RewardEvidenceAligned(after, d)
      ensures RewardEvidenceAligned(s.evidence, d) && RewardScansSurvive(s.evidence, after, d)
    {
      StillAligned(s.evidence.groups, after.groups[r.header.ref], after.groups, d);
      NothingLost(after.domains, d);
      NothingLost(after.planes, d);
    }
    RewardEvidenceNoted(c, s, after, date);
  }

  lemma DomainLeaves(c: Config, s: State, r: EvidenceRequest, now: nat)
    requires ViewsOk(c, s) && TablesKeyed(s.derived) && r.DomainRequest? && EvidenceError(c, s, r, now).None?
    ensures ViewsPending(c, s.(evidence := WithEvidence(s.evidence, r)), {}, {}, {DateOf(r.header.observedAt)})
  {
    hide ViewsPending, AlignedOn, StillFound, Trim, ReviewOf;
    var after := WithEvidence(s.evidence, r);
    var date := DateOf(r.header.observedAt);
    forall d | d != date && RewardEvidenceAligned(after, d)
      ensures RewardEvidenceAligned(s.evidence, d) && RewardScansSurvive(s.evidence, after, d)
    {
      StillAligned(s.evidence.domains, after.domains[r.header.ref], after.domains, d);
      NothingLost(after.groups, d);
      NothingLost(after.planes, d);
    }
    RewardEvidenceNoted(c, s, after, date);
  }

  lemma PlaneLeaves(c: Config, s: State, r: EvidenceRequest, now: nat)
    requires ViewsOk(c, s) && TablesKeyed(s.derived) && r.PlaneRequest? && EvidenceError(c, s, r, now).None?
    ensures ViewsPending(c, s.(evidence := WithEvidence(s.evidence, r)), {}, {}, {DateOf(r.header.observedAt)})
  {
    hide ViewsPending, AlignedOn, StillFound, Trim, ReviewOf;
    var after := WithEvidence(s.evidence, r);
    var date := DateOf(r.header.observedAt);
    forall d | d != date && RewardEvidenceAligned(after, d)
      ensures RewardEvidenceAligned(s.evidence, d) && RewardScansSurvive(s.evidence, after, d)
    {
      StillAligned(s.evidence.planes, after.planes[r.header.ref], after.planes, d);
      NothingLost(after.groups, d);
      NothingLost(after.domains, d);
    }
    RewardEvidenceNoted(c, s, after, date);
  }

  lemma PlacementLeaves(c: Config, s: State, r: EvidenceRequest, now: nat)
    requires ViewsOk(c, s) && TablesKeyed(s.derived) && r.PlacementRequest? && EvidenceError(c, s, r, now).None?
    ensures ViewsPending(c, s.(evidence := WithEvidence(s.evidence, r)), {}, {DateOf(r.header.observedAt)}, {DateOf(r.header.observedAt)})
  {
    hide ViewsPending, AlignedOn, StillFound, Trim, Upper;
    var after := WithEvidence(s.evidence, r);
    var date := DateOf(r.header.observedAt);
    PlacementNoted(c, s, after.placements[r.header.ref]);
    MorePending(c, s.(evidence := after), {}, {date}, {}, {date});
    assert {} + {date} == {date};
  }

  lemma EvidenceLeaves(c: Config, s: State, r: EvidenceRequest, now: nat)
    requires ViewsOk(c, s) && TablesKeyed(s.derived) && EvidenceError(c, s, r, now).None?
    ensures PendingFor(c, s.(evidence := WithEvidence(s.evidence, r)), RebuildOf(SendEvidence(r)))
  {
    hide ViewsPending, ViewsOk, FieldsError, NumbersError, RefTaken;
    match r
    case VotingKeyRequest(h, _, _, _) =>
      ViewsUnmoved(c, s, s.(evidence := WithEvidence(s.evidence, r)), {(h.nodeId, DateOf(h.observedAt))});
    case GroupRequest(_, _, _) => GroupLeaves(c, s, r, now);
    case PlacementRequest(_, _, _, _, _) => PlacementLeaves(c, s, r, now);
    case DomainRequest(_, _) => DomainLeaves(c, s, r, now);
    case PlaneRequest(_, _, _, _) => PlaneLeaves(c, s, r, now);
  }

  /** Every accepted event leaves exactly that to be rebuilt which its handler rebuilds. */
  lemma NotedLeaves(c: Config, seed: map<string, Node>, s: State, q: Request, now: nat)
    requires StateOk(c, seed, s) && RequestError(c, s, q, now).None?
    ensures PendingFor(c, Noted(c, s, q, now), RebuildOf(q))
  {
    hide ViewsPending, ViewsOk, EvidenceError, WithEvidence, RegistrationsKept, HeartbeatError, CheckError, ProbeError, TelemetryError;
    hide NodesOk, EventsOk, LogsOk, EvidenceOk, EnrollError;
    NotedWellFormed(c, seed, s, q, now);
    KeyedTables(s.derived, seed.Keys);
    var t := Noted(c, s, q, now);
    match q
    case Beat(r) => ViewsUnmoved(c, s, t, {(r.nodeId, DateOf(r.at))});
    case SendCheck(r) => ViewsUnmoved(c, s, t, {(r.nodeId, DateOf(r.checkedAt))});
    case SendProbe(r) => ProbeLeaves(c, seed, s, r, now);
    case SendEvidence(r) => EvidenceLeaves(c, s, r, now);
    case _ => NothingDue(c, s, t);
  }

  lemma NothingDue(c: Config, s: State, t: State)
    requires ViewsOk(c, s) && KeyedBy(s.derived.bases, BaseKey)
    requires t.derived == s.derived && t.evidence == s.evidence && t.probes == s.probes
    requires RegistrationsKept(s.nodes, t.nodes)
    ensures ViewsOk(c, t)
  {
    hide ViewsPending;
    ViewsUnmoved(c, s, t, {});
  }

  // ---- Rebuilding ----

  /** The rebuild settles it. */
  lemma RebuildSettles(c: Config, s: State, b: Rebuild, env: Env)
    requires PendingFor(c, s, b) && TablesKeyed(s.derived) && LooksFound(c, s, b, env)
    ensures ViewsOk(c, Rebuilt(c, s, b, env)) && TablesKeyed(Rebuilt(c, s, b, env).derived)
  {
    hide ViewsPending, ViewsOk, ArtifactStep, RebuildRanking, RebuildRewards, GradeStep, TablesKeyed, RankLooksFound, RewardsFound;
    match b
    case Nothing =>
    case Artifacts(nodeId, date) => ArtifactsRebuilt(c, s, nodeId, date, env);
    case WholeRanking(date) => RankingRebuilt(c, s, date, env.looks.ranks);
    case OnlyRewards(date) => RewardsRebuilt(c, s, date, env.looks.ranks.rewards);
  }

  ghost predicate UpperTablesOk(v: Derived, nodes: set<string>) {
    && TableOk(v.summaries, SummaryKey, SummaryNode, nodes)
    && TableOk(v.decisions, DecisionKey, DecisionNode, nodes)
    && TableOk(v.bases, BaseKey, BaseNode, nodes)
  }

  lemma RegradedRows(v: Derived, key: NodeDate, summary: Summary, decision: Decision, nodes: set<string>)
    requires UpperTablesOk(v, nodes) && SummaryKey(summary) == key == DecisionKey(decision) && key.0 in nodes
    ensures UpperTablesOk(Regraded(v, key, summary, decision), nodes)
  {
    hide Clamp;
    assert BaseKey(BaseOf(summary, decision)) == key;
  }

  lemma RebuildKeepsUpper(c: Config, s: State, b: Rebuild, env: Env, nodes: set<string>)
    requires UpperTablesOk(s.derived, nodes)
    requires b.Artifacts? ==> b.nodeId in nodes
    ensures UpperTablesOk(Rebuilt(c, s, b, env).derived, nodes)
  {
    hide UpperTablesOk, RankingStep, EligibilityStep, Regraded, SummaryOf, Failures, CountBeats;
    match b
    case Nothing =>
    case Artifacts(nodeId, date) =>
      var summary := SummaryOf(c.policy, s.probes, nodeId, date);
      SummaryNamesItsDay(c.policy, s.probes, nodeId, date);
      var decision := DecisionOf(summary, ReadingsOf(s, nodeId, date, env.now, env.looks));
      RegradedRows(s.derived, (nodeId, date), summary, decision, nodes);
      RankingStepKeepsRest(c.nominalPool, GradeStep(c, s, nodeId, date, env.now, env.looks), RegistrationsOf(s.nodes), date, env.looks.ranks);
      SameUpper(GradeStep(c, s, nodeId, date, env.now, env.looks), Rebuilt(c, s, b, env).derived, nodes);
    case WholeRanking(date) =>
      RankingStepKeepsRest(c.nominalPool, s.derived, RegistrationsOf(s.nodes), date, env.looks.ranks);
      SameUpper(s.derived, Rebuilt(c, s, b, env).derived, nodes);
    case OnlyRewards(date) =>
      StepKeepsRest(c.nominalPool, s.derived, date, RankingsOn(s.derived, date), env.looks.ranks.rewards);
      SameUpper(s.derived, Rebuilt(c, s, b, env).derived, nodes);
  }

  lemma SameUpper(v: Derived, w: Derived, nodes: set<string>)
    requires w.summaries == v.summaries && w.decisions == v.decisions && w.bases == v.bases && UpperTablesOk(v, nodes)
    ensures UpperTablesOk(w, nodes)
  {
  }

  // ---- Rows of the lower tables belong to ranked nodes ----

  lemma RankedNodesKnown(v: Derived, date: int, nodes: set<string>)
    requires RowsMatch(v, date) && TableOk(v.bases, BaseKey, BaseNode, nodes)
    ensures LogOk(RankingsOn(v, date), RankingNode, nodes)
  {
    hide Sorting, RankedList;
    var rows := RankingsOn(v, date);
    forall i | 0 <= i < |rows|
      ensures rows[i].nodeId in nodes
    {
      assert BasesOf(rows)[i] in OnDate(v.bases, date).Values;
      var k :| k in OnDate(v.bases, date) && OnDate(v.bases, date)[k] == rows[i].base;
      assert BaseNode(v.bases[k]) in nodes;
    }
  }

  lemma StoredRankingKnown(v: Derived, k: NodeDate, nodes: set<string>)
    requires RowsMatch(v, k.1) && TableOk(v.bases, BaseKey, BaseNode, nodes) && k in v.rankings
    ensures RankingNode(v.rankings[k]) in nodes
  {
    hide RankedList, Enumerates, RowsMatch, TableOk;
    RankedNodesKnown(v, k.1, nodes);
    assert OnDate(v.rankings, k.1)[k] == v.rankings[k];
    ListedRow(OnDate(v.rankings, k.1), RankingOrder, v.rankings[k]);
  }

  /** Every row of a table is listed. */
  lemma ListedRow<K(!new), V(!new)>(m: map<K, V>, order: V -> Key, r: V)
    requires r in m.Values
    ensures r in Sorting(m, order)
  {
  }

  lemma StoredEligibilityKnown(pool: real, v: Derived, k: NodeDate, nodes: set<string>)
    requires RowsMatch(v, k.1) && RewardsFollow(pool, v, k.1) && TableOk(v.bases, BaseKey, BaseNode, nodes)
    requires k in v.eligibility
    ensures EligibilityNode(v.eligibility[k]) in nodes
  {
    hide Sorting, Enumerates, TableOk, AllocationRows, StandingsOf, Exclusion;
    var looks :| RewardRows(pool, v, k.1, looks);
    var rankings := RankingsOn(v, k.1);
    var rows := NewEligibility(rankings, looks);
    RankedNodesKnown(v, k.1, nodes);
    EligibilityRowsKeyed(rankings, Claims(rankings, looks), k.1);
    FromRowsHolds(rows, EligibilityKey);
    assert OnDate(v.eligibility, k.1)[k] == v.eligibility[k];
    var i :| 0 <= i < |rows| && rows[i] == v.eligibility[k];
    assert rows[i].nodeId == rankings[i].nodeId;
    assert RankingNode(rankings[i]) in nodes;
  }

  lemma StoredAllocationKnown(pool: real, v: Derived, k: NodeDate, nodes: set<string>)
    requires RowsMatch(v, k.1) && RewardsFollow(pool, v, k.1) && TableOk(v.bases, BaseKey, BaseNode, nodes)
    requires k in v.allocations
    ensures AllocationNode(v.allocations[k]) in nodes
  {
    hide Sorting, Enumerates, TableOk, AllocationRows, StandingsOf, NewEligibility;
    var looks :| RewardRows(pool, v, k.1, looks);
    var rankings := RankingsOn(v, k.1);
    var rows := AllocationRows(pool, rankings, StandingsOf(NewEligibility(rankings, looks)));
    RankedNodesKnown(v, k.1, nodes);
    AllocationRowsKeyed(pool, rankings, StandingsOf(NewEligibility(rankings, looks)), k.1);
    FromRowsHolds(rows, AllocationKey);
    assert OnDate(v.allocations, k.1)[k] == v.allocations[k];
    var i :| 0 <= i < |rows| && rows[i] == v.allocations[k];
    assert RankingNode(rankings[i]) in nodes;
  }

  lemma ViewsBelongToNodes(c: Config, s: State, nodes: set<string>)
    requires ViewsOk(c, s) && TablesKeyed(s.derived) && UpperTablesOk(s.derived, nodes)
    ensures DerivedOk(s.derived, nodes)
  {
    hide RowsMatch, RankingStands, RewardsFollow, SummaryFresh, RankingFresh, RewardsFresh, GradesOk;
    var v := s.derived;
    forall date
      ensures RowsMatch(v, date)
    {
      StandingRowsMatch(RegistrationsOf(s.nodes), v, date);
    }
    forall k | k in v.rankings
      ensures RankingNode(v.rankings[k]) in nodes
    {
      StoredRankingKnown(v, k, nodes);
    }
    forall k | k in v.eligibility
      ensures EligibilityNode(v.eligibility[k]) in nodes
    {
      StoredEligibilityKnown(c.nominalPool, v, k, nodes);
    }
    forall k | k in v.allocations
      ensures AllocationNode(v.allocations[k]) in nodes
    {
      StoredAllocationKnown(c.nominalPool, v, k, nodes);
    }
  }

  lemma RebuiltNodeKnown(c: Config, s: State, q: Request, now: nat)
    requires RequestError(c, s, q, now).None? && RebuildOf(q).Artifacts?
    ensures RebuildOf(q).nodeId in s.nodes
  {
  }

  /** One accepted request, noted and rebuilt, keeps everything. */
  lemma SettledOk(c: Config, seed: map<string, Node>, s: State, q: Request, env: Env)
    requires StateOk(c, seed, s) && RequestError(c, s, q, env.now).None?
    requires LooksFound(c, Noted(c, s, q, env.now), RebuildOf(q), env)
    ensures StateOk(c, seed, Settled(c, s, q, env))
  {
    hide ViewsOk, Noted, RequestError, LooksFound, TableOk, LogOk, EvidenceOk, PendingFor, Rebuilt, RebuildOf, TablesKeyed, Grounded, SourcesKept, RegistrationsKept;
    var noted, b := Noted(c, s, q, env.now), RebuildOf(q);
    NotedWellFormed(c, seed, s, q, env.now);
    NotedLeaves(c, seed, s, q, env.now);
    KeyedTables(noted.derived, seed.Keys);
    RebuildSettles(c, noted, b, env);
    if b.Artifacts? {
      RebuiltNodeKnown(c, s, q, env.now);
    }
    RebuildKeepsUpper(c, noted, b, env, seed.Keys);
    ViewsBelongToNodes(c, Rebuilt(c, noted, b, env), seed.Keys);
    OnlyDerivedChanges(c, noted, b, env);
    NotedKeepsDecisions(c, s, q, env.now);
    EventKeepsSources(c, s, q, env.now);
    GroundedKept(s, noted, DueKeys(b));
    RebuildGrounds(c, noted, b, env);
  }

  lemma NotedKeepsDecisions(c: Config, s: State, q: Request, now: nat)
    requires RequestError(c, s, q, now).None?
    ensures Noted(c, s, q, now).derived == s.derived
  {
  }

  lemma OnlyDerivedChanges(c: Config, s: State, b: Rebuild, env: Env)
    ensures Rebuilt(c, s, b, env) == s.(derived := Rebuilt(c, s, b, env).derived)
  {
    hide ArtifactStep, EligibilityStep, RankingStep;
  }
}
