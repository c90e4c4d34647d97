/** The portal's handlers as they run: each changes the store in place, and what it leaves behind is
    what the corresponding step of the state machine says. */
module PortalServer {
  import opened Orders
  import opened Texts
  import opened Records
  import opened Tables
  import opened ProbeSummary
  import opened Qualification
  import opened RankingRules
  import opened AntiConcentration
  import opened Rewards
  import opened PortalState
  import opened Pipeline
  import opened Agreement
  import opened Snapshots
  import opened Portal
  import opened StoreMemory
  import opened Views
  import opened Reachable
  import opened Guarantees
  import opened Progress

  // ---- Scans and loops over listed rows ----

  method LookUpPlacements(e: Evidence, records: seq<Base>, date: int) returns (looks: seq<Look>)
    ensures PlacementsFound(e, records, date, looks)
  {
    looks := [];
    for i := 0 to |records|
      invariant |looks| == i && forall j :: 0 <= j < i ==> IsLatest(e.placements, records[j].nodeId, date, looks[j])
    {
      hide IsLatest;
      var found := LatestFor(e.placements, records[i].nodeId, date);
      looks := looks + [found];
    }
  }

  method LookUpGroups(e: Evidence, records: seq<Base>, date: int) returns (looks: seq<GroupLook>)
    ensures GroupsFound(e, records, date, looks)
  {
    looks := [];
    for i := 0 to |records|
      invariant |looks| == i && forall j :: 0 <= j < i ==> IsLatest(e.groups, records[j].nodeId, date, looks[j])
    {
      hide IsLatest;
      var found := LatestFor(e.groups, records[i].nodeId, date);
      looks := looks + [found];
    }
  }

  method LookUpRewards(e: Evidence, rankings: seq<Ranking>, date: int) returns (looks: seq<RewardLook>)
    ensures RewardsFound(e, rankings, date, looks)
  {
    looks := [];
    for i := 0 to |rankings|
      invariant |looks| == i && forall j :: 0 <= j < i ==> RewardFound(e, rankings[j].nodeId, date, looks[j])
    {
      hide IsLatest;
      var group := LatestFor(e.groups, rankings[i].nodeId, date);
      var domain := LatestFor(e.domains, rankings[i].nodeId, date);
      var plane := LatestFor(e.planes, rankings[i].nodeId, date);
      looks := looks + [RewardLook(group, domain, plane)];
    }
  }

  method IndexScores(records: seq<Base>, counted: seq<Look>, scored: seq<Look>, points: seq<real>) returns (scores: map<string, real>)
    requires |scored| == |records| && |points| == |records|
    requires forall i :: 0 <= i < |points| ==> points[i] == PlacementScore(counted, scored[i])
    ensures scores == ScoreMap(records, counted, scored)
  {
    hide PlacementScore;
    scores := map[];
    for i := 0 to |records|
      invariant scores == ScoreMap(records[..i], counted, scored)
    {
      assert records[..i + 1][..i] == records[..i];
      scores := scores[records[i].nodeId := points[i]];
    }
    assert records[..|records|] == records;
  }

  method BuildRankRows(order: seq<Base>, scores: map<string, real>, groups: seq<GroupLook>) returns (rows: seq<Ranking>)
    requires |groups| == |order|
    ensures rows == RankRows(order, scores, CopiedGroups(order, groups))
  {
    rows := [];
    for i := 0 to |order|
      invariant |rows| == i
      invariant forall j :: 0 <= j < i ==> rows[j] == RankRow(order[j], j + 1, scores, CopiedGroup(order[j].nodeId, groups[j]))
    {
      hide CopiedGroup, RankRow;
      rows := rows + [RankRow(order[i], i + 1, scores, CopiedGroup(order[i].nodeId, groups[i]))];
    }
  }

  // ---- Facts the methods rely on ----

  lemma SortedRecordsAreRanked(v: Derived, date: int, order: seq<Base>, scores: map<string, real>, registered: Registrations)
    requires KeyedBy(v.bases, BaseKey)
    requires multiset(order) == multiset(Listing(OnDate(v.bases, date))) && Sorted(order, RecordKey(scores, registered))
    ensures order == RankedOrder(OnDate(v.bases, date).Values, scores, registered)
  {
    hide RankedOrder, RecordKey;
    DayIsDistinct(v, date);
    RankedOrderUnique(order, Listing(OnDate(v.bases, date)), OnDate(v.bases, date).Values, scores, registered);
  }

  lemma EligibilityStepKeyed(pool: real, v: Derived, date: int, rankings: seq<Ranking>, looks: seq<RewardLook>)
    requires DerivedKeyed(v) && RankedList(rankings, date)
    ensures DerivedKeyed(EligibilityStep(pool, v, date, rankings, looks))
  {
    hide Replaced, FromRows, AllocationRows, RankedList, Sorting;
    var rows := NewEligibility(rankings, looks);
    EligibilityRowsKeyed(rankings, Claims(rankings, looks), date);
    AllocationRowsKeyed(pool, rankings, StandingsOf(rows), date);
    ReplacedDates(v.eligibility, date, rows, EligibilityKey);
    ReplacedDates(v.allocations, date, AllocationRows(pool, rankings, StandingsOf(rows)), AllocationKey);
  }

  lemma NewRankingsRanked(v: Derived, registered: Registrations, date: int, looks: RankLooks)
    requires KeyedBy(v.bases, BaseKey) && KeyedBy(v.rankings, RankingKey)
    ensures var rows := NewRankings(OnDate(v.bases, date), registered, looks);
      RankedList(rows, date) && KeyedBy(Replaced(v.rankings, date, rows, RankingKey), RankingKey)
  {
    hide Ranked, RankingTable, RankedList, Replaced, Sorting, FromRows;
    DayIsDistinct(v, date);
    var day := OnDate(v.bases, date);
    RankingTableIsRanked(day, registered, date, looks, CopiedGroups(Ranked(day, registered, looks), looks.groups));
    RankedListKeeps(v, date, NewRankings(day, registered, looks));
  }

  lemma FailureKeyed(s: State, nodeId: string, code: string, recipient: string, at: Stamp, now: int)
    requires AllKeyed(s)
    ensures AllKeyed(WithFailure(s, nodeId, code, recipient, at, now)) && AllKeyed(WithSuccess(s, nodeId, code, recipient, at, now))
  {
    hide EvidenceKeyed, DerivedKeyed;
  }

  lemma TelemetryKeyed(s: State, t: Telemetry)
    requires AllKeyed(s)
    ensures AllKeyed(WithTelemetry(s, t))
  {
    hide EvidenceKeyed, DerivedKeyed;
  }

  class Server {
    const c: Config
    const store: Store
    var disk: Option<Snapshot>
    ghost const seed: map<string, Node>
    ghost var accepted: seq<Acceptance>
    ghost var enrolled: seq<Enrollment>
    ghost var sent: seq<Sent>

    ghost function View(): Sys
      reads this, store
    {
      Sys(store.View(), disk, accepted, enrolled, sent)
    }

    constructor (c: Config, seed: map<string, Node>)
      ensures View() == Start(seed) && this.c == c && this.seed == seed && fresh(store)
    {
      this.c := c;
      this.seed := seed;
      store := new Store(seed);
      disk, accepted, enrolled, sent := None, [], [], [];
    }

    method Save(saves: bool)
      requires AllKeyed(store.View())
      modifies this`disk
      ensures View() == Persist(old(View()), saves)
    {
      var snap := store.TakeSnapshot();
      if saves {
        disk := Some(snap);
      }
    }

    // ---- Alerts ----

    method RecordDeliveryFailure(nodeId: string, code: string, recipient: string, at: Stamp, now: int, saves: bool)
      requires AllKeyed(store.View())
      modifies store, this`disk
      ensures View() == Persist(old(View()).(mem := WithFailure(old(store.View()), nodeId, code, recipient, at, now)), saves)
    {
      FailureKeyed(store.View(), nodeId, code, recipient, at, now);
      store.AddNotificationDelivery(DeliveryOf(nodeId, code, recipient, at, now, false));
      store.AddOperationalEvent(Operational(nodeId, DELIVERY_FAILED, Seconds(now)));
      Save(saves);
    }

    method MaybeNotifyAlert(nodeId: string, code: string, at: Stamp, now: int, io: Io) returns (ok: bool)
      requires AllKeyed(store.View())
      modifies store, this`disk, this`sent
      ensures (View(), ok) == Notify(c, old(View()), nodeId, code, at, now, io)
      ensures AllKeyed(store.View())
    {
      hide SnapshotOf, AllKeyed, Trim;
      var severity := SeverityOf(code);
      var key := (nodeId, code, severity);
      if key in store.alertStates && now < (store.alertStates[key].lastSentAt + Cooldown(severity)) * NANOS {
        return true;
      }
      var recipient := Trim(c.fallbackRecipient);
      if nodeId in store.nodes && !Blank(store.nodes[nodeId].operatorEmail) {
        recipient := Trim(store.nodes[nodeId].operatorEmail);
      }
      FailureKeyed(store.View(), nodeId, code, recipient, at, now);
      if recipient == "" || !io.sends {
        RecordDeliveryFailure(nodeId, code, recipient, at, now, io.saves);
        return true;
      }
      sent := sent + [Sent(nodeId, code, now)];
      store.SaveAlertState(AlertState(nodeId, code, severity, Seconds(now), recipient));
      store.AddNotificationDelivery(DeliveryOf(nodeId, code, recipient, at, now, true));
      Save(io.saves);
      ok := io.saves;
    }

    // ---- The pipeline ----

    method RebuildRewardAllocations(date: int, rankings: seq<Ranking>, rows: seq<Eligibility>)
      requires KeyedBy(store.derived.allocations, AllocationKey)
      modifies store
      ensures store.View() == old(store.View()).(derived := AllocationStep(c.nominalPool, old(store.derived), date, rankings, rows))
    {
      hide AllocationRows, Replaced;
      if rankings == [] {
        NoAllocations(c.nominalPool, StandingsOf(rows));
        store.ReplaceRewardAllocationRecordsForDate(date, []);
        return;
      }
      var standings := IndexByNode(rows);
      var allocations := AllocateRewards(c.nominalPool, rankings, standings);
      store.ReplaceRewardAllocationRecordsForDate(date, allocations);
    }

    method RebuildRewardEligibility(date: int, rankings: seq<Ranking>) returns (ghost looks: seq<RewardLook>)
      requires DerivedKeyed(store.derived) && RankedList(rankings, date)
      modifies store
      ensures RewardsFound(store.evidence, rankings, date, looks)
      ensures store.View() == old(store.View()).(derived := EligibilityStep(c.nominalPool, old(store.derived), date, rankings, looks))
      ensures DerivedKeyed(store.derived)
    {
      hide Replaced, RewardFound, EligibilityRows, AllocationRows, RankedList;
      var found := LookUpRewards(store.evidence, rankings, date);
      var rows := FilterClaims(rankings, Claims(rankings, found));
      EligibilityStepKeyed(c.nominalPool, store.derived, date, rankings, found);
      store.ReplaceRewardEligibilityRecordsForDate(date, rows);
      RebuildRewardAllocations(date, rankings, rows);
      looks := found;
    }

    method RebuildRankings(date: int) returns (ghost looks: RankLooks)
      requires DerivedKeyed(store.derived)
      modifies store
      ensures RankLooksFound(store.evidence, OnDate(old(store.derived).bases, date), RegistrationsOf(store.nodes), date, looks)
      ensures store.View() == old(store.View()).(derived := RankingStep(c.nominalPool, old(store.derived), RegistrationsOf(old(store.nodes)), date, looks))
      ensures DerivedKeyed(store.derived)
    {
      hide PlacementsFound, GroupsFound, RewardsFound, PlacementScore, RecordKey, Replaced, EligibilityStep, RankedList, ScoreMap, Sorted, RankedOrder, RankRows, Sorting;
      ghost var v := store.derived;
      ghost var day := OnDate(v.bases, date);
      var registered := map n | n in store.nodes :: store.nodes[n].registeredAt;
      var records := store.ListBasePerformanceRecordsByDate(date);
      var counted := LookUpPlacements(store.evidence, records, date);
      var scored := LookUpPlacements(store.evidence, records, date);
      LooksLength(store.evidence, records, date, scored);
      var points := ComputeDecentralizationScores(counted, scored);
      var scores := IndexScores(records, counted, scored, points);
      var order := SortSlice(records, RecordKey(scores, registered));
      SortedRecordsAreRanked(v, date, order, scores, registered);
      var groups := LookUpGroups(store.evidence, order, date);
      GroupLooksLength(store.evidence, order, date, groups);
      var rows := BuildRankRows(order, scores, groups);
      looks := RankLooks(counted, scored, groups, []);
      assert rows == NewRankings(day, registered, looks);
      NewRankingsRanked(v, registered, date, looks);
      store.ReplaceRankingRecordsForDate(date, rows);
      ghost var rewards := RebuildRewardEligibility(date, rows);
      looks := looks.(rewards := rewards);
      LaterLooksIgnored(day, registered, RankLooks(counted, scored, groups, []), groups, rewards);
    }

    method ComputeDecision(summary: Summary, nodeId: string, date: int, now: int) returns (decision: Decision, ghost check: Option<Observation<Check>>, ghost votingKey: Option<Observation<VotingKey>>)
      requires summary.nodeId == nodeId && summary.date == date
      ensures IsLatest(store.checks, nodeId, date, check) && IsLatest(store.evidence.votingKeys, nodeId, date, votingKey)
      ensures forall ranks :: decision == DecisionOf(summary, ReadingsOf(store.View(), nodeId, date, now, ArtifactLooks(check, votingKey, ranks)))
    {
      hide DecisionOf, CountBeats, IsLatest;
      var anchor := Anchor(date, now);
      var healthy := CountHeartbeatsWithinWindow(store.heartbeats, nodeId, anchor, HEALTHY_WINDOW);
      var recent := CountHeartbeatsWithinWindow(store.heartbeats, nodeId, anchor, FAILED_WINDOW);
      var latestCheck := LatestFor(store.checks, nodeId, date);
      var latestKey := LatestFor(store.evidence.votingKeys, nodeId, date);
      var registeredAt := if nodeId in store.nodes then store.nodes[nodeId].registeredAt else None;
      decision := ComputeQualifiedDecision(summary, Readings(healthy, recent, latestCheck, latestKey, registeredAt, anchor));
      check, votingKey := latestCheck, latestKey;
    }

    /** Summary, decision and base record of a node and date. */
    method GradeNode(nodeId: string, date: int, now: int) returns (summary: Summary, ghost check: Option<Observation<Check>>, ghost votingKey: Option<Observation<VotingKey>>)
      requires AllKeyed(store.View())
      modifies store
      ensures summary == SummaryOf(c.policy, old(store.probes), nodeId, date)
      ensures IsLatest(old(store.checks), nodeId, date, check) && IsLatest(old(store.evidence).votingKeys, nodeId, date, votingKey)
      ensures forall ranks :: store.View() == old(store.View()).(
        derived := GradeStep(c, old(store.View()), nodeId, date, now, ArtifactLooks(check, votingKey, ranks)))
    {
      hide IsLatest, DecisionOf, ReadingsOf, TallyOf, Grade, Clamp, Lists;
      var events := store.ListProbeEventsByNodeAndDate(nodeId, date);
      summary := ComputeDailySummary(c.policy, store.probes, events, nodeId, date);
      SummaryNamed(c.policy, store.probes, nodeId, date);
      var decision;
      decision, check, votingKey := ComputeDecision(summary, nodeId, date, now);
      DecisionNamed(summary, ReadingsOf(store.View(), nodeId, date, now, ArtifactLooks(check, votingKey, NO_LOOKS.ranks)));
      assert decision == DecisionOf(summary, ReadingsOf(store.View(), nodeId, date, now, ArtifactLooks(check, votingKey, NO_LOOKS.ranks)));
      store.SaveDailyQualificationSummary(summary);
      store.SaveQualifiedDecisionRecord(decision);
      if decision.qualified {
        store.SaveBasePerformanceRecord(BaseOf(summary, decision));
      } else {
        store.DeleteBasePerformanceRecord(nodeId, date);
      }
    }

    /** `updateQualificationArtifacts`: grade the node, re-rank the date, raise alerts. */
    method UpdateQualificationArtifacts(nodeId: string, date: int, now: nat, io: nat -> Io, ghost saves: bool) returns (ghost looks: ArtifactLooks)
      requires AllKeyed(store.View())
      modifies store, this`disk, this`sent
      ensures LooksFound(c, old(store.View()), Artifacts(nodeId, date), Env(now, looks, io, saves))
      ensures var env := Env(now, looks, io, saves);
        var settled := old(View()).(mem := Rebuilt(c, old(store.View()), Artifacts(nodeId, date), env));
        View() == SummaryAlerts(c, settled, SummaryOf(c.policy, old(store.probes), nodeId, date), env)
      ensures AllKeyed(store.View())
    {
      hide GradeStep, RankingStep, SummaryOf, Notify, RankLooksFound, IsLatest;
      ghost var s := store.View();
      var summary;
      ghost var check, votingKey;
      summary, check, votingKey := GradeNode(nodeId, date, now);
      GradedKeyed(c, s, nodeId, date, now, ArtifactLooks(check, votingKey, NO_LOOKS.ranks));
      assert store.View() == s.(derived := GradeStep(c, s, nodeId, date, now, ArtifactLooks(check, votingKey, NO_LOOKS.ranks)));
      ghost var ranks := RebuildRankings(date);
      looks := ArtifactLooks(check, votingKey, ranks);
      GradeIgnoresRanks(c, s, nodeId, date, now, ArtifactLooks(check, votingKey, NO_LOOKS.ranks), ranks);
      AlertSummary(summary, now, io);
    }

    method AlertSummary(summary: Summary, now: nat, io: nat -> Io)
      requires AllKeyed(store.View())
      modifies store, this`disk, this`sent
      ensures forall looks, saves :: View() == SummaryAlerts(c, old(View()), summary, Env(now, looks, io, saves))
      ensures AllKeyed(store.View())
    {
      hide Notify, AllKeyed;
      if summary.valid > 0 && !summary.availabilityPassed {
        var _ := MaybeNotifyAlert(summary.nodeId, NODE_OUTAGE, Printed(now), now, io(0));
      }
      if summary.finalizedMeasurable > 0 && !summary.finalizedPassed {
        var _ := MaybeNotifyAlert(summary.nodeId, FINALIZED_LAG, Printed(now), now, io(1));
      }
    }

    // ---- Handlers ----

    method Finish(saves: bool) returns (reply: Reply)
      requires AllKeyed(store.View())
      modifies this`disk
      ensures View() == Persist(old(View()), saves)
      ensures reply == if saves then Done else Refused(PersistFailed)
    {
      hide AllKeyed, SnapshotOf;
      Save(saves);
      reply := if saves then Done else Refused(PersistFailed);
    }

    method InSkew(t: TimeText, now: nat) returns (ok: bool)
      ensures ok == TimestampOk(c, t, now)
    {
      if !t.At? {
        return false;
      }
      var at := Instant(t.t) * NANOS;
      ok := !(at < now - c.clockSkew * NANOS || at > now + c.clockSkew * NANOS);
    }

    method HandleEnrollmentChallenge(nodeId: string, now: nat, io: nat -> Io, saves: bool) returns (reply: Reply)
      requires WellFormed(seed, store.View())
      modifies store, this`disk
      ensures Handled(c, seed, old(View()), Issue(nodeId), Env(now, NO_LOOKS, io, saves), View(), reply)
    {
      hide SnapshotOf, WellFormed, AllKeyed, Handle, Possible, RegistrationsKept;
      ghost var sys := View();
      ghost var env := Env(now, NO_LOOKS, io, saves);
      if nodeId == "" {
        RefusedHandled(c, seed, sys, Issue(nodeId), env);
        return Refused(MissingField);
      }
      if nodeId !in store.nodes {
        RefusedHandled(c, seed, sys, Issue(nodeId), env);
        return Refused(UnknownNode);
      }
      NotedWellFormed(c, seed, store.View(), Issue(nodeId), now);
      store.SaveEnrollmentChallenge(NewChallenge(c, nodeId, now));
      WellFormedIsKeyed(seed, store.View());
      reply := Finish(saves);
      QuietHandled(c, seed, sys, Issue(nodeId), env);
    }

    /** The checks of `handleEnroll` in their order. */
    method RefuseEnrollment(r: EnrollRequest, now: nat) returns (error: Option<Error>)
      ensures error == EnrollError(store.View(), r, now)
    {
      if r.nodeId == "" || r.challengeId == "" || r.publicKey == "" || r.signature == "" {
        return Some(MissingField);
      }
      if r.nodeId !in store.nodes {
        return Some(UnknownNode);
      }
      if r.challengeId !in store.challenges {
        return Some(InvalidChallenge);
      }
      var challenge := store.challenges[r.challengeId];
      if challenge.nodeId != r.nodeId {
        return Some(InvalidChallenge);
      }
      if challenge.usedAt.Some? {
        return Some(ChallengeUsed);
      }
      if !(now < challenge.expiresAt * NANOS) {
        return Some(ChallengeExpired);
      }
      if r.fingerprint.None? {
        return Some(InvalidPublicKey);
      }
      if !r.signed {
        return Some(InvalidSignature);
      }
      return None;
    }

    method HandleEnroll(r: EnrollRequest, now: nat, io: nat -> Io, saves: bool) returns (reply: Reply)
      requires WellFormed(seed, store.View())
      modifies store, this`disk, this`enrolled
      ensures Handled(c, seed, old(View()), Enroll(r), Env(now, NO_LOOKS, io, saves), View(), reply)
    {
      hide SnapshotOf, WellFormed, AllKeyed, Handle, Possible, EnrollError, RegistrationsKept;
      ghost var sys := View();
      ghost var env := Env(now, NO_LOOKS, io, saves);
      var error := RefuseEnrollment(r, now);
      if error.Some? {
        RefusedHandled(c, seed, sys, Enroll(r), env);
        return Refused(error.value);
      }
      NotedWellFormed(c, seed, store.View(), Enroll(r), now);
      EnrollNamed(seed, store.View(), r, now);
      var node := store.nodes[r.nodeId];
      node := node.(fingerprint := r.fingerprint.value);
      node := node.(publicKey := r.publicKey);
      node := node.(generation := node.generation + 1);
      if node.registeredAt.None? {
        node := node.(registeredAt := Some(Seconds(now)));
      }
      node := node.(lastPolicyVersion := c.policy.version);
      node := node.(lastSequence := 0);
      store.SaveNode(node);
      var _ := store.ConsumeEnrollmentChallenge(r.challengeId, Seconds(now));
      WellFormedIsKeyed(seed, store.View());
      reply := Finish(saves);
      enrolled := enrolled + [Enrollment(r.nodeId, r.challengeId, saves)];
      QuietHandled(c, seed, sys, Enroll(r), env);
    }

    /** The checks of `handleHeartbeat` in their order. */
    method RefuseHeartbeat(r: HeartbeatRequest, now: nat) returns (error: Option<Error>)
      ensures error == HeartbeatError(c, store.View(), r, now)
    {
      if r.nodeId !in store.nodes {
        return Some(UnknownNode);
      }
      var node := store.nodes[r.nodeId];
      if node.publicKey == "" || r.fingerprint != node.fingerprint {
        return Some(UnknownFingerprint);
      }
      if r.generation != node.generation {
        return Some(GenerationMismatch);
      }
      var inSkew := InSkew(r.at, now);
      if !inSkew {
        return Some(InvalidTimestamp);
      }
      if !r.signed {
        return Some(InvalidSignature);
      }
      if r.sequence <= node.lastSequence {
        return Some(StaleSequence);
      }
      return None;
    }

    method HandleHeartbeat(r: HeartbeatRequest, now: nat, io: nat -> Io, saves: bool) returns (reply: Reply, ghost looks: ArtifactLooks)
      requires WellFormed(seed, store.View())
      modifies store, this`disk, this`sent, this`accepted
      ensures Handled(c, seed, old(View()), Beat(r), Env(now, looks, io, saves), View(), reply)
    {
      hide SnapshotOf, WellFormed, AllKeyed, Handle, Possible, HeartbeatError, SummaryAlerts, Rebuilt, LooksFound, RegistrationsKept;
      ghost var sys := View();
      looks := NO_LOOKS;
      var error := RefuseHeartbeat(r, now);
      if error.Some? {
        RefusedHandled(c, seed, sys, Beat(r), Env(now, looks, io, saves));
        return Refused(error.value), looks;
      }
      NotedWellFormed(c, seed, store.View(), Beat(r), now);
      HeartbeatNamed(c, seed, store.View(), r, now);
      var node := store.nodes[r.nodeId];
      node := node.(lastSequence := r.sequence);
      node := node.(lastHeartbeat := Some(r.at.t));
      node := node.(lastPolicyVersion := c.policy.version);
      store.SaveNode(node);
      store.SaveHeartbeatEvent(Heartbeat(r.nodeId, r.at.t, r.sequence));
      WellFormedIsKeyed(seed, store.View());
      looks := UpdateQualificationArtifacts(r.nodeId, UtcDate(r.at.t), now, io, saves);
      reply := Finish(saves);
      accepted := accepted + [Acceptance(r.nodeId, r.generation, r.sequence, saves)];
      ArtifactsHandled(c, seed, sys, Beat(r), Env(now, looks, io, saves));
    }

    method Authorize(nodeId: string, fingerprint: string, signed: bool) returns (error: Option<Error>)
      ensures error == AuthError(store.View(), nodeId, fingerprint, signed)
    {
      if nodeId !in store.nodes {
        return Some(UnknownNode);
      }
      var node := store.nodes[nodeId];
      if node.publicKey == "" || fingerprint != node.fingerprint {
        return Some(UnknownFingerprint);
      }
      if !signed {
        return Some(InvalidSignature);
      }
      return None;
    }

    /** The checks of `handleChecks` in their order, up to the duplicate check. */
    method RefuseCheck(r: CheckRequest, now: nat) returns (error: Option<Error>)
      ensures error == if r.eventId in store.checks && CheckError(c, store.View(), r, now) == Some(Duplicate) then None
        else CheckError(c, store.View(), r, now)
    {
      hide TimestampOk;
      error := Authorize(r.nodeId, r.fingerprint, r.signed);
      if error.Some? {
        return;
      }
      if r.policyVersion != c.policy.version {
        return Some(PolicyMismatch);
      }
      if r.schemaVersion != "1" {
        return Some(InvalidSchema);
      }
      if r.cpuProfileId != c.policy.cpuProfileId {
        return Some(CpuProfileMismatch);
      }
      if r.diskProfileId != c.policy.diskProfileId {
        return Some(DiskProfileMismatch);
      }
      if r.eventId == "" {
        return Some(MissingField);
      }
      if r.eventType !in {"registration", "voting_key_renewal", "recheck"} {
        return Some(InvalidEventType);
      }
      var inSkew := InSkew(r.checkedAt, now);
      if !inSkew {
        return Some(InvalidTimestamp);
      }
      if !AllPresent(r.subChecks) || r.overall.None? {
        return Some(MissingField);
      }
      if r.overall.value != AllPassed(r.subChecks) {
        return Some(InvalidOverall);
      }
      return None;
    }

    method HandleChecks(r: CheckRequest, now: nat, io: nat -> Io, saves: bool) returns (reply: Reply, ghost looks: ArtifactLooks)
      requires WellFormed(seed, store.View())
      modifies store, this`disk, this`sent
      ensures Handled(c, seed, old(View()), SendCheck(r), Env(now, looks, io, saves), View(), reply)
    {
      hide SnapshotOf, WellFormed, AllKeyed, Handle, Possible, SummaryAlerts, Rebuilt, LooksFound, RegistrationsKept, CheckError;
      ghost var sys := View();
      looks := NO_LOOKS;
      var error := RefuseCheck(r, now);
      CheckDuplicate(c, store.View(), r, now);
      if error.Some? {
        RefusedHandled(c, seed, sys, SendCheck(r), Env(now, looks, io, saves));
        return Refused(error.value), looks;
      }
      var saved := store.SaveCheckEvent(Observation(r.eventId, r.nodeId, r.checkedAt.t, Check(r.overall.value)));
      if !saved {
        RefusedHandled(c, seed, sys, SendCheck(r), Env(now, looks, io, saves));
        return Refused(Duplicate), looks;
      }
      NotedWellFormed(c, seed, sys.mem, SendCheck(r), now);
      WellFormedIsKeyed(seed, store.View());
      looks := UpdateQualificationArtifacts(r.nodeId, UtcDate(r.checkedAt.t), now, io, saves);
      reply := Finish(saves);
      ArtifactsHandled(c, seed, sys, SendCheck(r), Env(now, looks, io, saves));
    }

    /** The checks of `handleProbeEvents` in their order, up to the duplicate check. */
    method RefuseProbe(r: ProbeRequest, now: nat) returns (error: Option<Error>)
      ensures error == if r.probeId in store.probes && ProbeError(c, store.View(), r, now) == Some(Duplicate) then None
        else ProbeError(c, store.View(), r, now)
    {
      hide TimestampOk;
      if r.schemaVersion != "1" {
        return Some(InvalidSchema);
      }
      if r.probeId == "" || r.nodeId == "" || r.regionId == "" || r.observedAt == Empty || r.endpoint == "" {
        return Some(MissingField);
      }
      if r.nodeId !in store.nodes {
        return Some(UnknownNode);
      }
      var inSkew := InSkew(r.observedAt, now);
      if !inSkew {
        return Some(InvalidTimestamp);
      }
      if r.up.None? {
        return Some(MissingField);
      }
      if !r.window.Is? || r.window.n <= 0 {
        return Some(MissingField);
      }
      if !NotNegative(r.finalizedLag) || !NotNegative(r.chainLag) || !NotNegative(r.sourceHeight) || !NotNegative(r.peerHeight) {
        return Some(InvalidLag);
      }
      if !NotNegative(r.httpStatus) {
        return Some(InvalidPayload);
      }
      if r.up.value && (!r.finalizedLag.Is? || !r.chainLag.Is? || !r.sourceHeight.Is? || !r.peerHeight.Is?) {
        return Some(MissingField);
      }
      return None;
    }

    method HandleProbeEvents(r: ProbeRequest, now: nat, io: nat -> Io, saves: bool) returns (reply: Reply, ghost looks: ArtifactLooks)
      requires WellFormed(seed, store.View())
      modifies store, this`disk, this`sent
      ensures Handled(c, seed, old(View()), SendProbe(r), Env(now, looks, io, saves), View(), reply)
    {
      hide SnapshotOf, WellFormed, AllKeyed, Handle, Possible, SummaryAlerts, Rebuilt, LooksFound, RegistrationsKept, ProbeError;
      ghost var sys := View();
      looks := NO_LOOKS;
      var error := RefuseProbe(r, now);
      ProbeDuplicate(c, store.View(), r, now);
      if error.Some? {
        RefusedHandled(c, seed, sys, SendProbe(r), Env(now, looks, io, saves));
        return Refused(error.value), looks;
      }
      var saved := store.SaveProbeEvent(Observation(r.probeId, r.nodeId, r.observedAt.t, ProbeOf(r)));
      if !saved {
        RefusedHandled(c, seed, sys, SendProbe(r), Env(now, looks, io, saves));
        return Refused(Duplicate), looks;
      }
      NotedWellFormed(c, seed, sys.mem, SendProbe(r), now);
      WellFormedIsKeyed(seed, store.View());
      looks := UpdateQualificationArtifacts(r.nodeId, UtcDate(r.observedAt.t), now, io, saves);
      reply := Finish(saves);
      ArtifactsHandled(c, seed, sys, SendProbe(r), Env(now, looks, io, saves));
    }

    /** The checks of the evidence handlers in their order, up to the duplicate check. */
    method RefuseEvidence(r: EvidenceRequest, now: nat) returns (error: Option<Error>)
      ensures error == if EvidenceError(c, store.View(), r, now) == Some(Duplicate) then None else EvidenceError(c, store.View(), r, now)
    {
      hide TimestampOk, FieldsError, NumbersError;
      FieldsNeverDuplicate(r);
      error := FieldsError(r);
      if error.Some? {
        return;
      }
      if r.header.nodeId !in store.nodes {
        return Some(UnknownNode);
      }
      var inSkew := InSkew(r.header.observedAt, now);
      if !inSkew {
        return Some(InvalidTimestamp);
      }
      error := NumbersError(r);
    }

    method SaveEvidence(r: EvidenceRequest) returns (ok: bool)
      requires FieldsError(r).None? && NumbersError(r).None? && r.header.observedAt.At?
      modifies store
      ensures ok == !RefTaken(old(store.evidence), r)
      ensures store.View() == if ok then old(store.View()).(evidence := WithEvidence(old(store.evidence), r)) else old(store.View())
    {
      hide Trim, ReviewOf;
      var rows := WithEvidence(store.evidence, r);
      match r
      case VotingKeyRequest(h, _, _, _) => ok := store.SaveVotingKeyEvidence(rows.votingKeys[h.ref]);
      case GroupRequest(h, _, _) => ok := store.SaveOperatorGroupEvidence(rows.groups[h.ref]);
      case PlacementRequest(h, _, _, _, _) => ok := store.SaveDecentralizationEvidence(rows.placements[h.ref]);
      case DomainRequest(h, _) => ok := store.SaveDomainEvidence(rows.domains[h.ref]);
      case PlaneRequest(h, _, _, _) => ok := store.SaveSharedControlPlaneEvidence(rows.planes[h.ref]);
    }

    method HandleEvidence(r: EvidenceRequest, now: nat, io: nat -> Io, saves: bool) returns (reply: Reply, ghost looks: ArtifactLooks)
      requires StateOk(c, seed, store.View())
      modifies store, this`disk, this`sent
      ensures Handled(c, seed, old(View()), SendEvidence(r), Env(now, looks, io, saves), View(), reply)
    {
      hide SnapshotOf, WellFormed, ViewsOk, AllKeyed, Handle, Possible, SummaryAlerts, Rebuilt, LooksFound, RegistrationsKept, EvidenceError, FieldsError, NumbersError, WithEvidence;
      ghost var sys := View();
      ghost var q := SendEvidence(r);
      looks := NO_LOOKS;
      var error := RefuseEvidence(r, now);
      EvidenceDuplicate(c, store.View(), r, now);
      if error.Some? {
        RefusedHandled(c, seed, sys, q, Env(now, looks, io, saves));
        return Refused(error.value), looks;
      }
      var saved := SaveEvidence(r);
      if !saved {
        RefusedHandled(c, seed, sys, q, Env(now, looks, io, saves));
        return Refused(Duplicate), looks;
      }
      NotedWellFormed(c, seed, sys.mem, q, now);
      WellFormedIsKeyed(seed, store.View());
      ghost var _ := DateRanked(c, seed, sys.mem, UtcDate(r.header.observedAt.t));
      var date := UtcDate(r.header.observedAt.t);
      if r.VotingKeyRequest? {
        looks := UpdateQualificationArtifacts(r.header.nodeId, date, now, io, saves);
        reply := Finish(saves);
        ArtifactsHandled(c, seed, sys, q, Env(now, looks, io, saves));
      } else {
        looks := RebuildFor(r, date, now, io, saves);
        reply := Finish(saves);
        RebuildHandled(c, seed, sys, q, Env(now, looks, io, saves));
      }
    }

    /** A placement re-ranks the date; other evidence rebuilds the rewards from the stored ranking. */
    method RebuildFor(r: EvidenceRequest, date: int, now: nat, io: nat -> Io, ghost saves: bool) returns (ghost looks: ArtifactLooks)
      requires !r.VotingKeyRequest? && r.header.observedAt.At? && date == UtcDate(r.header.observedAt.t)
      requires AllKeyed(store.View()) && RankedList(RankingsOn(store.derived, date), date)
      modifies store
      ensures LooksFound(c, old(store.View()), RebuildOf(SendEvidence(r)), Env(now, looks, io, saves))
      ensures store.View() == Rebuilt(c, old(store.View()), RebuildOf(SendEvidence(r)), Env(now, looks, io, saves))
      ensures AllKeyed(store.View())
    {
      hide RankedList, Sorting, EligibilityStep, RankingStep, RankLooksFound, RewardsFound, EvidenceKeyed;
      if r.PlacementRequest? {
        ghost var ranks := RebuildRankings(date);
        looks := ArtifactLooks(None, None, ranks);
      } else {
        var rankings := store.ListRankingRecordsByDate(date);
        ghost var rewards := RebuildRewardEligibility(date, rankings);
        looks := ArtifactLooks(None, None, RankLooks([], [], [], rewards));
      }
    }

    /** The checks of `handleTelemetry` in their order. */
    method RefuseTelemetry(r: TelemetryRequest, now: nat) returns (error: Option<Error>)
      ensures error == TelemetryError(c, store.View(), r, now)
    {
      hide TimestampOk;
      error := Authorize(r.nodeId, r.fingerprint, r.signed);
      if error.Some? {
        return;
      }
      if r.policyVersion != c.policy.version {
        return Some(PolicyMismatch);
      }
      var inSkew := InSkew(r.at, now);
      if !inSkew {
        return Some(InvalidTimestamp);
      }
      if r.flags.None? || r.flags.value == [] {
        return Some(MissingField);
      }
      return None;
    }

    /** The flags in turn; the first failure ends the request and keeps what was stored before it. */
    method StoreFlags(nodeId: string, at: Stamp, flags: seq<string>, now: nat, io: nat -> Io, ghost saves: bool) returns (failed: Option<Error>)
      requires AllKeyed(store.View())
      modifies store, this`disk, this`sent
      ensures (View(), failed) == FlagsStep(c, old(View()), nodeId, at, flags, |flags|, Env(now, NO_LOOKS, io, saves))
      ensures AllKeyed(store.View())
    {
      hide AllKeyed, Notify;
      ghost var before := View();
      ghost var env := Env(now, NO_LOOKS, io, saves);
      for i := 0 to |flags|
        invariant AllKeyed(store.View())
        invariant (View(), None) == FlagsStep(c, before, nodeId, at, flags, i, env)
      {
        if flags[i] !in WARNING_CODES {
          FlagsStopped(c, before, nodeId, at, flags, i + 1, env);
          return Some(InvalidWarningCode);
        }
        TelemetryKeyed(store.View(), Telemetry(nodeId, at, flags[i]));
        store.AddTelemetryEvent(Telemetry(nodeId, at, flags[i]));
        var ok := MaybeNotifyAlert(nodeId, flags[i], at, now, io(i));
        if !ok {
          FlagsStopped(c, before, nodeId, at, flags, i + 1, env);
          return Some(PersistFailed);
        }
      }
      failed := None;
    }

    method HandleTelemetry(r: TelemetryRequest, now: nat, io: nat -> Io, saves: bool) returns (reply: Reply)
      requires AllKeyed(store.View())
      modifies store, this`disk, this`sent
      ensures Handled(c, seed, old(View()), SendTelemetry(r), Env(now, NO_LOOKS, io, saves), View(), reply)
    {
      hide SnapshotOf, AllKeyed, Handle, Possible, TelemetryError, FlagsStep;
      ghost var sys := View();
      ghost var env := Env(now, NO_LOOKS, io, saves);
      var error := RefuseTelemetry(r, now);
      if error.Some? {
        RefusedHandled(c, seed, sys, SendTelemetry(r), env);
        return Refused(error.value);
      }
      TelemetryFields(c, store.View(), r, now);
      TelemetryHandled(c, seed, sys, r, env);
      var failed := StoreFlags(r.nodeId, r.at.t, r.flags.value, now, io, saves);
      if failed.Some? {
        return Refused(failed.value);
      }
      reply := Finish(saves);
    }

    /** `evaluateHeartbeatAlerts`: every enrolled node that was ever heard of, in node order. */
    method EvaluateHeartbeatAlerts(now: nat, io: nat -> Io, ghost saves: bool)
      requires AllKeyed(store.View())
      modifies store, this`disk, this`sent
      ensures Handled(c, seed, old(View()), Scan, Env(now, NO_LOOKS, io, saves), View(), Done)
    {
      hide AllKeyed, Notify, Handle, Possible, Sorting;
      ghost var before := View();
      ghost var env := Env(now, NO_LOOKS, io, saves);
      KeyedNodes(store.View());
      var nodes := store.ListNodes();
      for i := 0 to |nodes|
        invariant AllKeyed(store.View())
        invariant View() == ScanStep(c, before, nodes, i, env)
      {
        var node := nodes[i];
        if node.publicKey != "" && node.lastHeartbeat.Some? {
          var age := now - Instant(node.lastHeartbeat.value) * NANOS;
          if age >= c.failedAfter {
            var _ := MaybeNotifyAlert(node.nodeId, HEARTBEAT_FAILED, Printed(now), now, io(i));
          } else if age >= c.staleAfter {
            var _ := MaybeNotifyAlert(node.nodeId, HEARTBEAT_STALE, Printed(now), now, io(i));
          }
        }
      }
      ScanHandled(c, seed, before, env);
    }
  }

  lemma NoAllocations(pool: real, standings: Standings)
    ensures AllocationRows(pool, [], standings) == []
  {
  }

  lemma LooksLength(e: Evidence, records: seq<Base>, date: int, looks: seq<Look>)
    requires PlacementsFound(e, records, date, looks)
    ensures |looks| == |records|
  {
  }

  lemma GroupLooksLength(e: Evidence, records: seq<Base>, date: int, looks: seq<GroupLook>)
    requires GroupsFound(e, records, date, looks)
    ensures |looks| == |records|
  {
  }

  lemma SummaryNamed(policy: Policy, probes: Probes, nodeId: string, date: int)
    ensures SummaryOf(policy, probes, nodeId, date).nodeId == nodeId && SummaryOf(policy, probes, nodeId, date).date == date
  {
    hide TallyOf;
  }

  lemma DecisionNamed(s: Summary, r: Readings)
    ensures DecisionOf(s, r).nodeId == s.nodeId && DecisionOf(s, r).date == s.date
  {
    hide Failures;
  }

  lemma GradedKeyed(c: Config, s: State, nodeId: string, date: int, now: int, looks: ArtifactLooks)
    requires AllKeyed(s)
    ensures AllKeyed(s.(derived := GradeStep(c, s, nodeId, date, now, looks)))
  {
    hide EvidenceKeyed, SummaryOf, DecisionOf, Clamp, ReadingsOf;
    var summary := SummaryOf(c.policy, s.probes, nodeId, date);
    SummaryNamed(c.policy, s.probes, nodeId, date);
    DecisionNamed(summary, ReadingsOf(s, nodeId, date, now, looks));
  }

  // ---- What a handler is proved to do ----

  /** The handler's effect and reply are those of the step, with scan results that the scans may find. */
  ghost predicate Handled(c: Config, seed: map<string, Node>, before: Sys, q: Request, env: Env, after: Sys, reply: Reply) {
    && Possible(c, before, Event(q, env))
    && reply == Handle(c, seed, before, q, env).1
    && after == Step(c, seed, before, q, env)
  }

  lemma RefusedHandled(c: Config, seed: map<string, Node>, sys: Sys, q: Request, env: Env)
    requires RequestError(c, sys.mem, q, env.now).Some?
    ensures Handled(c, seed, sys, q, env, sys, Refused(RequestError(c, sys.mem, q, env.now).value))
  {
    hide RequestError, Alerts, LooksFound;
  }

  /** A request that only stores its event. */
  lemma QuietHandled(c: Config, seed: map<string, Node>, sys: Sys, q: Request, env: Env)
    requires RequestError(c, sys.mem, q, env.now).None? && (q.Issue? || q.Enroll?)
    ensures var reply := if env.saves then Done else Refused(PersistFailed);
      Handled(c, seed, sys, q, env, Logged(Persist(sys.(mem := Noted(c, sys.mem, q, env.now)), env.saves), q, reply), reply)
  {
    hide RequestError, Noted, SnapshotOf, ArtifactStep, RankingStep, EligibilityStep, SummaryAlerts, FlagsStep, ScanStep;
  }

  /** A request that re-grades a node. */
  lemma ArtifactsHandled(c: Config, seed: map<string, Node>, sys: Sys, q: Request, env: Env)
    requires RequestError(c, sys.mem, q, env.now).None? && RebuildOf(q).Artifacts?
    requires LooksFound(c, Noted(c, sys.mem, q, env.now), RebuildOf(q), env)
    ensures var reply := if env.saves then Done else Refused(PersistFailed);
      var noted := Noted(c, sys.mem, q, env.now);
      var alerted := SummaryAlerts(c, sys.(mem := Rebuilt(c, noted, RebuildOf(q), env)),
        SummaryOf(c.policy, noted.probes, RebuildOf(q).nodeId, RebuildOf(q).date), env);
      Handled(c, seed, sys, q, env, Logged(Persist(alerted, env.saves), q, reply), reply)
  {
    hide RequestError, Noted, SnapshotOf, Rebuilt, SummaryAlerts, FlagsStep, ScanStep, SummaryOf, LooksFound;
    OnlyDerivedChanges(c, Noted(c, sys.mem, q, env.now), RebuildOf(q), env);
  }

  lemma EnrollNamed(seed: map<string, Node>, s: State, r: EnrollRequest, now: nat)
    requires WellFormed(seed, s) && EnrollError(s, r, now).None?
    ensures r.nodeId in s.nodes && s.nodes[r.nodeId].nodeId == r.nodeId && r.challengeId in s.challenges && r.fingerprint.Some?
  {
    hide EventsOk, LogsOk, EvidenceOk, DerivedOk;
  }

  lemma HeartbeatNamed(c: Config, seed: map<string, Node>, s: State, r: HeartbeatRequest, now: nat)
    requires WellFormed(seed, s) && HeartbeatError(c, s, r, now).None?
    ensures r.nodeId in s.nodes && s.nodes[r.nodeId].nodeId == r.nodeId && r.at.At?
  {
    hide EventsOk, LogsOk, EvidenceOk, DerivedOk;
  }

  lemma CheckDuplicate(c: Config, s: State, r: CheckRequest, now: nat)
    ensures CheckError(c, s, r, now) == Some(Duplicate) ==> r.eventId in s.checks && r.checkedAt.At? && r.overall.Some?
    ensures CheckError(c, s, r, now).None? ==> r.eventId !in s.checks && r.checkedAt.At? && r.overall.Some?
  {
  }

  lemma ProbeDuplicate(c: Config, s: State, r: ProbeRequest, now: nat)
    ensures ProbeError(c, s, r, now) == Some(Duplicate) ==> r.probeId in s.probes && r.observedAt.At? && r.up.Some?
    ensures ProbeError(c, s, r, now).None? ==> r.probeId !in s.probes && r.observedAt.At? && r.up.Some?
  {
  }

  lemma FieldsNeverDuplicate(r: EvidenceRequest)
    ensures FieldsError(r) != Some(Duplicate) && NumbersError(r) != Some(Duplicate)
  {
    hide Trim, ReviewOf, Blank;
  }

  lemma EvidenceDuplicate(c: Config, s: State, r: EvidenceRequest, now: nat)
    ensures var error := EvidenceError(c, s, r, now);
      error == Some(Duplicate) || error.None? ==>
        && FieldsError(r).None? && NumbersError(r).None? && r.header.observedAt.At?
        && (error.None? <==> !RefTaken(s.evidence, r))
  {
    hide FieldsError, NumbersError, RefTaken;
    FieldsNeverDuplicate(r);
  }

  lemma RebuildHandled(c: Config, seed: map<string, Node>, sys: Sys, q: Request, env: Env)
    requires RequestError(c, sys.mem, q, env.now).None? && (RebuildOf(q).WholeRanking? || RebuildOf(q).OnlyRewards?)
    requires LooksFound(c, Noted(c, sys.mem, q, env.now), RebuildOf(q), env)
    ensures var reply := if env.saves then Done else Refused(PersistFailed);
      Handled(c, seed, sys, q, env, Persist(sys.(mem := Rebuilt(c, Noted(c, sys.mem, q, env.now), RebuildOf(q), env)), env.saves), reply)
  {
    hide RequestError, Noted, SnapshotOf, Rebuilt, SummaryAlerts, FlagsStep, ScanStep, LooksFound;
  }

  lemma {:induction false} FlagsStopped(c: Config, sys: Sys, nodeId: string, at: Stamp, flags: seq<string>, n: nat, env: Env)
    requires n <= |flags| && FlagsStep(c, sys, nodeId, at, flags, n, env).1.Some?
    ensures FlagsStep(c, sys, nodeId, at, flags, |flags|, env) == FlagsStep(c, sys, nodeId, at, flags, n, env)
    decreases |flags| - n
  {
    hide Notify;
    if n < |flags| {
      FlagsStopped(c, sys, nodeId, at, flags, n + 1, env);
    }
  }

  lemma TelemetryFields(c: Config, s: State, r: TelemetryRequest, now: nat)
    requires TelemetryError(c, s, r, now).None?
    ensures r.at.At? && r.flags.Some? && RequestError(c, s, SendTelemetry(r), now).None?
  {
  }

  lemma TelemetryHandled(c: Config, seed: map<string, Node>, sys: Sys, r: TelemetryRequest, env: Env)
    requires RequestError(c, sys.mem, SendTelemetry(r), env.now).None? && r.at.At? && r.flags.Some?
    ensures var (after, failed) := FlagsStep(c, sys, r.nodeId, r.at.t, r.flags.value, |r.flags.value|, env);
      && (failed.Some? ==> Handled(c, seed, sys, SendTelemetry(r), env, after, Refused(failed.value)))
      && (failed.None? ==> Handled(c, seed, sys, SendTelemetry(r), env, Persist(after, env.saves), if env.saves then Done else Refused(PersistFailed)))
  {
    hide RequestError, SnapshotOf, FlagsStep;
    assert Settled(c, sys.mem, SendTelemetry(r), env) == sys.mem;
  }

  lemma ScanHandled(c: Config, seed: map<string, Node>, sys: Sys, env: Env)
    ensures Handled(c, seed, sys, Scan, env, AlertScan(c, sys, env), Done)
  {
    hide SnapshotOf, AlertScan;
    assert Settled(c, sys.mem, Scan, env) == sys.mem;
  }

  lemma KeyedNodes(s: State)
    requires AllKeyed(s)
    ensures KeyedBy(s.nodes, NodeKey)
  {
    hide EvidenceKeyed, DerivedKeyed;
  }
}
