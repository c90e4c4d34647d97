/** What the stored rows of every reachable store say by themselves: in numbers, and in terms of the evidence
    and events they rest on. */
module ReachableRows {
  import opened Records
  import opened Texts
  import opened Tables
  import opened ProbeSummary
  import opened Qualification
  import opened RankingRules
  import opened AntiConcentration
  import opened Rewards
  import opened PortalState
  import opened Pipeline
  import opened Portal
  import opened Views
  import opened Gradings
  import opened Reachable
  import opened PortalRuns
  import opened Guarantees
  import opened Progress

  // ---- Eligibility ----

  /** For the same evidence of the ranked nodes, dropping any group or control plane that was not accepted
      would change no stored row. */
  lemma UnacceptedChangesNothing(c: Config, seed: map<string, Node>, run: seq<Event>, date: int) returns (looks: seq<RewardLook>)
    requires SeedOk(seed) && Lawful(c, seed, run)
    ensures var s := After(c, seed, run).mem;
      var rankings, rows := RankingsOn(s.derived, date), EligibilityOn(s.derived, date);
      && (RewardEvidenceAligned(s.evidence, date) ==> RewardsFound(s.evidence, rankings, date, looks))
      && |rows| == |rankings| == |looks|
      && (forall fewer: seq<RewardLook> :: |fewer| == |looks| && (forall i :: 0 <= i < |looks| ==> DropsUnaccepted(looks[i], fewer[i])) ==>
           rows == EligibilityRows(rankings, Claims(rankings, fewer)))
  {
    hide After, Lawful, Sorting, RewardsFound, RewardEvidenceAligned, RowInEvidence, EligibilityRows, Claims, DropsUnaccepted, Exclusion, Overlap, EligibilityOn;
    looks := ReachableEligibility(c, seed, run, date);
    var rankings := RankingsOn(After(c, seed, run).mem.derived, date);
    forall fewer: seq<RewardLook> | |fewer| == |looks| && forall i :: 0 <= i < |looks| ==> DropsUnaccepted(looks[i], fewer[i])
      ensures EligibilityOn(After(c, seed, run).mem.derived, date) == EligibilityRows(rankings, Claims(rankings, fewer))
    {
      UnacceptedCountsForNothing(rankings, looks, fewer);
    }
  }

  // ---- Allocations ----

  /** In every reachable store and for every date, each stored allocation adds up by its own columns; it is for
      the node of that rank, and rewards it exactly if the eligibility row says so. */
  lemma AllocationsAddUp(c: Config, seed: map<string, Node>, run: seq<Event>, date: int, i: nat)
    requires SeedOk(seed) && Lawful(c, seed, run)
    requires i < |AllocationsOn(After(c, seed, run).mem.derived, date)|
    ensures var v := After(c, seed, run).mem.derived;
      var rankings, rows := RankingsOn(v, date), AllocationsOn(v, date);
      && |rows| == (if |rankings| <= 1_073_741_824 then |rankings| else 1_073_741_824) && |EligibilityOn(v, date)| == |rankings|
      && RowAddsUp(c.nominalPool, |rankings|, rows, i)
      && rows[i].nodeId == rankings[i].nodeId == EligibilityOn(v, date)[i].nodeId
      && rows[i].eligible == EligibilityOn(v, date)[i].eligible && rows[i].exclusion == EligibilityOn(v, date)[i].exclusion
  {
    hide After, Lawful, Sorting, RowAddsUp, StateOk, SavedOk, AllocationsOn, EligibilityOn;
    RunOk(c, seed, run);
    StoredAllocationAddsUp(c, seed, After(c, seed, run).mem, date, i);
  }

  lemma StoredAllocationAddsUp(c: Config, seed: map<string, Node>, s: State, date: int, i: nat)
    requires StateOk(c, seed, s) && i < |AllocationsOn(s.derived, date)|
    ensures var v := s.derived;
      var rankings, rows := RankingsOn(v, date), AllocationsOn(v, date);
      && |rows| == (if |rankings| <= 1_073_741_824 then |rankings| else 1_073_741_824) && |EligibilityOn(v, date)| == |rankings|
      && RowAddsUp(c.nominalPool, |rankings|, rows, i)
      && rows[i].nodeId == rankings[i].nodeId == EligibilityOn(v, date)[i].nodeId
      && rows[i].eligible == EligibilityOn(v, date)[i].eligible && rows[i].exclusion == EligibilityOn(v, date)[i].exclusion
  {
    hide Sorting, RowAddsUp, StateOk, RewardRows, StandingsOf, AllocationRows, RowsMatch, AllocationsOn, EligibilityOn;
    var looks := DateRanked(c, seed, s, date);
    var rankings := RankingsOn(s.derived, date);
    StoredEligibilityListed(c.nominalPool, s.derived, date, looks);
    StoredAllocationsListed(c.nominalPool, s.derived, date, looks);
    var standings := StandingsOf(NewEligibility(rankings, looks));
    RowInNumbers(c.nominalPool, rankings, standings, date, i);
    AllocationMatchesStanding(c.nominalPool, rankings, looks, date, i);
  }

  lemma AllocationMatchesStanding(pool: real, rankings: seq<Ranking>, looks: seq<RewardLook>, date: int, i: nat)
    requires RankedList(rankings, date)
    requires i < |AllocationRows(pool, rankings, StandingsOf(NewEligibility(rankings, looks)))|
    ensures var row, standing := AllocationRows(pool, rankings, StandingsOf(NewEligibility(rankings, looks)))[i], NewEligibility(rankings, looks);
      && i < |standing| == |rankings| && row.nodeId == rankings[i].nodeId == standing[i].nodeId
      && row.eligible == standing[i].eligible && row.exclusion == standing[i].exclusion
  {
    hide StandingsOf, AllocationRows, ClaimOf, Exclusion;
    var rows := NewEligibility(rankings, looks);
    AllocationClosedForm(pool, rankings, StandingsOf(rows), date);
    EligibilityRowsOf(rankings, looks, date);
    StandingOfRow(rows, i);
  }

  lemma EligibilityRowsOf(rankings: seq<Ranking>, looks: seq<RewardLook>, date: int)
    requires RankedList(rankings, date)
    ensures var rows := NewEligibility(rankings, looks);
      && |rows| == |rankings| && DistinctKeys(rows, EligibilityKey)
      && forall k :: 0 <= k < |rows| ==> rows[k].nodeId == rankings[k].nodeId && rows[k].date == date
  {
    hide ClaimOf, Exclusion;
  }

  /** All that is paid on a date, what no band claims, and the reserve that its rows show are the nominal
      pool; and with a pool that is not negative at least a quarter of what its rows distribute is paid. */
  lemma PoolOfDateAddsUp(c: Config, seed: map<string, Node>, run: seq<Event>, date: int)
    requires SeedOk(seed) && Lawful(c, seed, run)
    requires RankingsOn(After(c, seed, run).mem.derived, date) != []
    ensures var rows := AllocationsOn(After(c, seed, run).mem.derived, date);
      && rows != []
      && Paid(rows) + LeftOver(rows, 1, 0.25) + LeftOver(rows, 6, 0.35) + LeftOver(rows, 21, 0.25) + LeftOver(rows, 51, 0.15)
         + rows[0].reservePool == c.nominalPool
      && (c.nominalPool >= 0.0 ==> Paid(rows) >= rows[0].distributedPool * 0.25)
  {
    hide After, Lawful, Sorting, AllocationRows, StandingsOf, Unclaimed, Paid, LeftOver, AllocationsOn, EligibilityOn, RowAddsUp, SavedOk, StateOk;
    RunOk(c, seed, run);
    var s := After(c, seed, run).mem;
    var _ := DateRanked(c, seed, s, date);
    ReachableRewardsConserved(c, seed, run, date);
    PoolAddsUp(c.nominalPool, RankingsOn(s.derived, date), StandingsOf(EligibilityOn(s.derived, date)), date);
    AllocationClosedForm(c.nominalPool, RankingsOn(s.derived, date), StandingsOf(EligibilityOn(s.derived, date)), date);
  }

  // ---- Decisions and base records ----

  /** For some moment not after the last second of the date: the decision lists exactly what the stored
      heartbeats, registration time, check and voting key and the summary hold against the node then. */
  ghost predicate DecidedAt(s: State, k: NodeDate, check: Option<Observation<Check>>, key: Option<Observation<VotingKey>>, anchor: int)
    requires k in s.derived.decisions && k in s.derived.summaries
  {
    var d, m := s.derived.decisions[k], s.derived.summaries[k];
    && anchor <= (k.1 * 86_400 + 86_399) * 1_000_000_000
    && (AlignedFor(s.checks, k.0, k.1) ==> IsLatest(s.checks, k.0, k.1, check))
    && (AlignedFor(s.evidence.votingKeys, k.0, k.1) ==> IsLatest(s.evidence.votingKeys, k.0, k.1, key))
    && d.probePassed == m.evidencePassed && d.hardwarePassed == CheckedWell(check) && d.votingKeyPassed == KeyedWell(key)
    && (d.heartbeatPassed ==> HeardTwice(s.heartbeats, k.0, anchor))
    && (d.qualified ==>
         && d.failures == [] && m.evidencePassed && HeardTwice(s.heartbeats, k.0, anchor) && CheckedWell(check) && KeyedWell(key)
         && RegisteredLongEnough(RegisteredAt(s, k.0), anchor))
    && (HeartbeatMissing !in d.failures && !d.heartbeatPassed ==> HeardOnce(s.heartbeats, k.0, anchor))
  }

  lemma DecisionsInSeconds(c: Config, seed: map<string, Node>, run: seq<Event>, k: NodeDate)
    requires SeedOk(seed) && Lawful(c, seed, run) && k in After(c, seed, run).mem.derived.decisions
    ensures var s := After(c, seed, run).mem;
      k in s.derived.summaries && exists check, key, anchor :: DecidedAt(s, k, check, key, anchor)
  {
    hide After, Lawful, WellFormed, ViewsOk, SavedOk, Grounded, DecidedAt;
    RunOk(c, seed, run);
    assert Grounded(After(c, seed, run).mem, k);
    GroundedInSeconds(After(c, seed, run).mem, k);
  }

  lemma GroundedInSeconds(s: State, k: NodeDate)
    requires Grounded(s, k) && k in s.derived.decisions
    ensures k in s.derived.summaries && exists check, key, anchor :: DecidedAt(s, k, check, key, anchor)
  {
    hide IsLatest, AlignedFor, CountBeats, HeardTwice, HeardOnce;
    var r :| ReadingsHold(s, k, r) && s.derived.decisions[k] == DecisionOf(s.derived.summaries[k], r);
    var m := s.derived.summaries[k];
    GatesOfReadings(m, r);
    ReadingsInSeconds(s, k, r);
    StaleMeansHeard(m, r);
    assert DecidedAt(s, k, r.check, r.votingKey, r.anchor);
  }

  lemma StaleMeansHeard(m: Summary, r: Readings)
    ensures HeartbeatMissing !in DecisionOf(m, r).failures && !DecisionOf(m, r).heartbeatPassed ==> r.recentBeats > 0
    ensures DecisionOf(m, r).qualified ==> DecisionOf(m, r).failures == []
  {
    if r.healthyBeats < 2 && r.recentBeats == 0 {
      assert Listed(HeartbeatFailure(r)) == [HeartbeatMissing];
    }
  }

  lemma ReadingsInSeconds(s: State, k: NodeDate, r: Readings)
    requires ReadingsHold(s, k, r)
    ensures r.anchor <= (k.1 * 86_400 + 86_399) * 1_000_000_000
    ensures r.healthyBeats >= 2 ==> HeardTwice(s.heartbeats, k.0, r.anchor)
    ensures r.recentBeats > 0 ==> HeardOnce(s.heartbeats, k.0, r.anchor)
    ensures Observed(r) ==> RegisteredLongEnough(RegisteredAt(s, k.0), r.anchor)
  {
    hide CountBeats, HeardTwice, HeardOnce, AlignedFor, IsLatest;
    BeatsInNumbers(s.heartbeats, k.0, r.anchor);
  }

  /** In every reachable store a base record rests on a registration that is at least 259200 seconds, and on
      two heartbeats that are at most 900 seconds before one moment not after the last second of its date;
      and its points are those of the counts in the summary. */
  lemma BaseRecordsInNumbers(c: Config, seed: map<string, Node>, run: seq<Event>, k: NodeDate)
    requires SeedOk(seed) && Lawful(c, seed, run) && k in After(c, seed, run).mem.derived.bases
    ensures var s := After(c, seed, run).mem;
      && (exists anchor ::
           && anchor <= (k.1 * 86_400 + 86_399) * 1_000_000_000
           && RegisteredAt(s, k.0).Some? && anchor >= (RegisteredAt(s, k.0).value + 259_200) * 1_000_000_000
           && HeardTwice(s.heartbeats, k.0, anchor))
      && k in s.derived.summaries && BaseAddsUp(s.derived.summaries[k], s.derived.bases[k])
  {
    hide After, Lawful, WellFormed, SavedOk, SummaryFresh, RankingFresh, RewardsFresh, RankingStands, RewardsFollow, AllAcceptable, GroundedExcept, HeardTwice, BaseAddsUp;
    DecisionsOfBases(c, seed, run, k);
    DecisionsInSeconds(c, seed, run, k);
    RunOk(c, seed, run);
    BasePointsAddUp(c, After(c, seed, run).mem, k);
  }

  lemma DecisionsOfBases(c: Config, seed: map<string, Node>, run: seq<Event>, k: NodeDate)
    requires SeedOk(seed) && Lawful(c, seed, run) && k in After(c, seed, run).mem.derived.bases
    ensures var v := After(c, seed, run).mem.derived; k in v.decisions && v.decisions[k].qualified
  {
    hide After, Lawful;
    ReachableRowsExist(c, seed, run, k);
  }

  predicate BaseAddsUp(m: Summary, b: Base) {
    && m.valid > 0 && m.up > 0 && ColumnsAddUp(m) && m.evidencePassed
    && b.availability == 30.0 * (m.up as real / m.valid as real)
    && b.finalization == 20.0 * (m.finalizedWithin as real / m.up as real)
    && b.chainSync == 10.0 * (m.chainWithin as real / m.up as real)
    && b.votingKey == 10.0
    && b.total == b.availability + b.finalization + b.chainSync + b.votingKey
  }

  lemma BasePointsAddUp(c: Config, s: State, k: NodeDate)
    requires ViewsOk(c, s) && k in s.derived.bases
    ensures k in s.derived.summaries && BaseAddsUp(s.derived.summaries[k], s.derived.bases[k])
  {
    hide SummaryFresh, RankingFresh, RewardsFresh, RankingStands, RewardsFollow, AllAcceptable;
    var m, d := s.derived.summaries[k], s.derived.decisions[k];
    var r :| d == DecisionOf(m, r);
    QualifiedPoints(m, r);
  }

  lemma QualifiedPoints(m: Summary, r: Readings)
    requires CountsOrdered(m) && DecisionOf(m, r).qualified && InScoreWindow(BaseOf(m, DecisionOf(m, r)))
    ensures BaseAddsUp(m, BaseOf(m, DecisionOf(m, r)))
  {
    RatioBounds(m.up, m.valid);
    RatioBounds(m.finalizedWithin, m.up);
    RatioBounds(m.chainWithin, m.up);
  }

  /** Every summary of a reachable store adds up, and decides no gate but by its own counts. */
  lemma SummariesAddUp(c: Config, seed: map<string, Node>, run: seq<Event>, k: NodeDate)
    requires SeedOk(seed) && Lawful(c, seed, run) && k in After(c, seed, run).mem.derived.summaries
    ensures var m := After(c, seed, run).mem.derived.summaries[k];
      && 0 <= m.finalizedWithin <= m.up <= m.valid && 0 <= m.chainWithin <= m.up && ColumnsAddUp(m)
  {
    hide After, Lawful, WellFormed, SavedOk, SummaryFresh, RankingFresh, RewardsFresh, RankingStands, RewardsFollow, AllAcceptable, GroundedExcept;
    RunOk(c, seed, run);
  }

  // ---- What an accepted event leaves ----

  /** The decision lists exactly what is held against the node at the moment it is judged: now, or the last
      second of the date. */
  ghost predicate JudgedNow(s: State, k: NodeDate, now: int, check: Option<Observation<Check>>, key: Option<Observation<VotingKey>>)
    requires k in s.derived.decisions && k in s.derived.summaries
  {
    var end := (k.1 * 86_400 + 86_399) * 1_000_000_000;
    var anchor := if now < end then now else end;
    && IsLatest(s.checks, k.0, k.1, check) && IsLatest(s.evidence.votingKeys, k.0, k.1, key)
    && s.derived.decisions[k].failures
       == HeldAgainst(s.derived.summaries[k], s.heartbeats, Readings(0, 0, check, key, RegisteredAt(s, k.0), anchor))
  }

  /** After any accepted heartbeat, check, probe or voting key of a run: the summary of the node and UTC date is
      the recount of the stored probes, the decision lists exactly what the store holds against the node now,
      and the node has a base record exactly if that is nothing. */
  lemma RegradedInNumbers(c: Config, seed: map<string, Node>, run: seq<Event>, e: Event)
    requires SeedOk(seed) && Lawful(c, seed, run) && Possible(c, After(c, seed, run), e)
    requires RequestError(c, After(c, seed, run).mem, e.q, e.env.now).None? && RebuildOf(e.q).Artifacts?
    ensures var t, k := Step(c, seed, After(c, seed, run), e.q, e.env).mem, (RebuildOf(e.q).nodeId, RebuildOf(e.q).date);
      && k in t.derived.decisions && k in t.derived.summaries
      && t.derived.summaries[k] == SummaryOf(c.policy, t.probes, k.0, k.1)
      && (exists check, key :: JudgedNow(t, k, e.env.now, check, key))
      && (k in t.derived.bases <==> t.derived.decisions[k].failures == [])
  {
    hide After, Lawful, SysOk, Step, Settled, RequestError, Noted, RebuildOf, Possible, JudgedNow, SummaryOf, SameButAlerts, LooksFound;
    RunOk(c, seed, run);
    var sys, b := After(c, seed, run), RebuildOf(e.q);
    NoRestart(e.q);
    StepLeavesSettled(c, seed, sys, e);
    LooksOfPossible(c, sys, e);
    SettledJudged(c, sys.mem, e);
    JudgedStays(Step(c, seed, sys, e.q, e.env).mem, Settled(c, sys.mem, e.q, e.env), (b.nodeId, b.date), e.env.now, e.env.looks.check, e.env.looks.votingKey);
  }

  lemma NoRestart(q: Request)
    ensures RebuildOf(q).Artifacts? ==> !q.Restart?
  {
  }

  lemma LooksOfPossible(c: Config, sys: Sys, e: Event)
    requires Possible(c, sys, e) && RequestError(c, sys.mem, e.q, e.env.now).None?
    ensures LooksFound(c, Noted(c, sys.mem, e.q, e.env.now), RebuildOf(e.q), e.env)
  {
  }

  lemma JudgedStays(t: State, s: State, k: NodeDate, now: int, check: Option<Observation<Check>>, key: Option<Observation<VotingKey>>)
    requires SameButAlerts(t, s) && k in s.derived.decisions && k in s.derived.summaries
    ensures t.derived == s.derived && t.probes == s.probes
    ensures JudgedNow(s, k, now, check, key) ==> JudgedNow(t, k, now, check, key)
  {
    hide IsLatest, HeldAgainst;
  }

  lemma SettledJudged(c: Config, s: State, e: Event)
    requires RequestError(c, s, e.q, e.env.now).None? && RebuildOf(e.q).Artifacts?
    requires LooksFound(c, Noted(c, s, e.q, e.env.now), RebuildOf(e.q), e.env)
    ensures var t, k := Settled(c, s, e.q, e.env), (RebuildOf(e.q).nodeId, RebuildOf(e.q).date);
      && k in t.derived.decisions && k in t.derived.summaries
      && t.derived.summaries[k] == SummaryOf(c.policy, t.probes, k.0, k.1)
      && JudgedNow(t, k, e.env.now, e.env.looks.check, e.env.looks.votingKey)
      && (k in t.derived.bases <==> t.derived.decisions[k].failures == [])
  {
    hide RequestError, Noted, RebuildOf, RankingStep, RankLooksFound, IsLatest, SummaryOf, DecisionOf, HeldAgainst, CountBeats, BaseOf;
    var noted, b := Noted(c, s, e.q, e.env.now), RebuildOf(e.q);
    var summary := SummaryOf(c.policy, noted.probes, b.nodeId, b.date);
    var r := ReadingsOf(noted, b.nodeId, b.date, e.env.now, e.env.looks);
    SummaryNamesItsDay(c.policy, noted.probes, b.nodeId, b.date);
    RankingStepKeepsRest(c.nominalPool, GradeStep(c, noted, b.nodeId, b.date, e.env.now, e.env.looks), RegistrationsOf(noted.nodes), b.date, e.env.looks.ranks);
    DecisionInNumbers(summary, noted.heartbeats, r);
    SameHeld(summary, noted.heartbeats, r, Readings(0, 0, r.check, r.votingKey, r.registeredAt, r.anchor));
    QualifiedIffNothingHeld(summary, r);
  }

  lemma SameHeld(m: Summary, beats: seq<Heartbeat>, r: Readings, q: Readings)
    requires q == r.(healthyBeats := q.healthyBeats, recentBeats := q.recentBeats)
    ensures HeldAgainst(m, beats, r) == HeldAgainst(m, beats, q)
  {
    hide HeardTwice, HeardOnce;
  }

  lemma QualifiedIffNothingHeld(m: Summary, r: Readings)
    ensures DecisionOf(m, r).qualified <==> DecisionOf(m, r).failures == []
  {
    hide Failures;
  }

  /** The latest group evidence, accepted or not, unless it is blank; else the node's own id. */
  ghost predicate GroupCopied(e: Evidence, date: int, row: Ranking, look: GroupLook) {
    && IsLatest(e.groups, row.nodeId, date, look)
    && row.operatorGroupId == if look.Some? && Trim(look.value.what.operatorGroupId) != "" then look.value.what.operatorGroupId else row.nodeId
  }

  /** Each row of a re-ranked date copies the group that the evidence then shows. */
  lemma RerankedGroups(pool: real, e: Evidence, v: Derived, registered: Registrations, date: int, looks: RankLooks, k: nat)
    requires KeyedBy(v.bases, BaseKey) && KeyedBy(v.rankings, RankingKey)
    requires RankLooksFound(e, OnDate(v.bases, date), registered, date, looks)
    requires k < |RankingsOn(RankingStep(pool, v, registered, date, looks), date)|
    ensures exists look :: GroupCopied(e, date, RankingsOn(RankingStep(pool, v, registered, date, looks), date)[k], look)
  {
    hide Ranked, RankingTable, RankedList, Sorting, EligibilityStep, NewRankings, RankLooksFound, FromRows, KeyedBy, GroupCopied;
    var day := OnDate(v.bases, date);
    var rows := NewRankings(day, registered, looks);
    DayIsDistinct(v, date);
    RowsRanked(day, registered, date, looks);
    RankedListKeeps(v, date, rows);
    StepKeepsRest(pool, v.(rankings := Replaced(v.rankings, date, rows, RankingKey)), date, rows, looks.rewards);
    var look := RowGroup(e, day, registered, date, looks, k);
  }

  lemma RowsRanked(day: Day, registered: Registrations, date: int, looks: RankLooks)
    requires DistinctNodes(day.Values) && forall r :: r in day.Values ==> r.date == date
    ensures RankedList(NewRankings(day, registered, looks), date)
  {
    hide RankedList, Ranked, RankingTable;
    RankingTableIsRanked(day, registered, date, looks, CopiedGroups(Ranked(day, registered, looks), looks.groups));
  }

  lemma RowGroup(e: Evidence, day: Day, registered: Registrations, date: int, looks: RankLooks, i: nat) returns (look: GroupLook)
    requires RankLooksFound(e, day, registered, date, looks) && i < |NewRankings(day, registered, looks)|
    ensures GroupCopied(e, date, NewRankings(day, registered, looks)[i], look)
  {
    hide Ranked, PlacementsFound, RewardsFound, IsLatest;
    var order := Ranked(day, registered, looks);
    look := looks.groups[i];
    assert IsLatest(e.groups, order[i].nodeId, date, look);
  }
}
