/** The derived tables as materialized views: what every handler keeps true of them. */
module Views {
  import opened Orders
  import opened Records
  import opened Tables
  import opened ProbeSummary
  import opened Qualification
  import opened RankingRules
  import opened AntiConcentration
  import opened PortalState
  import opened Pipeline
  import opened Agreement
  import opened Portal

  /** Every time text that names the date denotes a moment of it. */
  ghost predicate AlignedOn<X>(m: map<string, Observation<X>>, date: int) {
    forall ref :: ref in m && TextDate(m[ref].observedAt) == date ==> UtcDate(m[ref].observedAt) == date
  }

  /** The same for the observations of one node. */
  ghost predicate AlignedFor<X>(m: map<string, Observation<X>>, nodeId: string, date: int) {
    forall ref :: ref in m && m[ref].nodeId == nodeId && TextDate(m[ref].observedAt) == date ==> UtcDate(m[ref].observedAt) == date
  }

  ghost predicate RewardEvidenceAligned(e: Evidence, date: int) {
    AlignedOn(e.groups, date) && AlignedOn(e.domains, date) && AlignedOn(e.planes, date)
  }

  // ---- Summaries, decisions, base records ----

  ghost predicate GradedAs(s: Summary, d: Decision) {
    exists r :: d == DecisionOf(s, r)
  }

  /** Every decision follows from its summary, and exactly the qualified ones have a base record. */
  ghost predicate GradesOk(nodes: map<string, Node>, v: Derived) {
    && v.summaries.Keys == v.decisions.Keys
    && (forall k :: k in v.summaries ==> CountsOrdered(v.summaries[k]))
    && (forall k :: k in v.decisions ==> GradedAs(v.summaries[k], v.decisions[k]))
    && (forall k :: k in v.bases <==> k in v.decisions && v.decisions[k].qualified)
    && (forall k :: k in v.bases ==>
         && v.bases[k] == BaseOf(v.summaries[k], v.decisions[k])
         && InScoreWindow(v.bases[k])
         && k.0 in nodes && nodes[k.0].registeredAt.Some?)
  }

  ghost predicate SummaryFresh(c: Config, s: State, k: NodeDate) {
    AlignedFor(s.probes, k.0, k.1) && k in s.derived.summaries ==> s.derived.summaries[k] == SummaryOf(c.policy, s.probes, k.0, k.1)
  }

  // ---- Rankings and rewards ----

  /** The stored ranking of a date ranks exactly its base records. */
  ghost predicate RowsMatch(v: Derived, date: int) {
    var rows := RankingsOn(v, date);
    && RankedList(rows, date)
    && (forall i :: 0 <= i < |rows| ==> rows[i].nodeId == rows[i].base.nodeId)
    && Enumerates(BasesOf(rows), OnDate(v.bases, date).Values)
  }

  function BasesOf(rows: seq<Ranking>): seq<Base> {
    seq(|rows|, i requires 0 <= i < |rows| => rows[i].base)
  }

  /** The stored ranking of a date is the one that some placement evidence gives. */
  ghost predicate RankingStands(registered: Registrations, v: Derived, date: int) {
    exists e :: RankingCurrent(e, registered, v, date)
  }

  lemma StandingRowsMatch(registered: Registrations, v: Derived, date: int)
    requires RankingStands(registered, v, date) && KeyedBy(v.bases, BaseKey)
    ensures RowsMatch(v, date)
  {
    hide RankingCurrent, RankedList, Enumerates, Sorting;
    var e :| RankingCurrent(e, registered, v, date);
    CurrentRankingIsRanked(e, registered, v, date);
  }

  ghost predicate RewardsFollow(pool: real, v: Derived, date: int) {
    exists looks :: RewardRows(pool, v, date, looks)
  }

  ghost predicate RankingFresh(s: State, date: int) {
    AlignedOn(s.evidence.placements, date) ==> RankingCurrent(s.evidence, RegistrationsOf(s.nodes), s.derived, date)
  }

  ghost predicate RewardsFresh(c: Config, s: State, date: int) {
    RewardEvidenceAligned(s.evidence, date) ==> RewardsCurrent(c.nominalPool, s.evidence, s.derived, date)
  }

  /** The views are in order except that the summaries under `keys`, the rankings of `rankDates` and
      the rewards of `rewardDates` still wait for their rebuild. */
  ghost predicate ViewsPending(c: Config, s: State, keys: set<NodeDate>, rankDates: set<int>, rewardDates: set<int>) {
    && AllAcceptable(s.probes)
    && GradesOk(s.nodes, s.derived)
    && (forall k :: k !in keys ==> SummaryFresh(c, s, k))
    && (forall date :: date !in rankDates ==> RankingStands(RegistrationsOf(s.nodes), s.derived, date) && RankingFresh(s, date))
    && (forall date :: date !in rewardDates ==> RewardsFollow(c.nominalPool, s.derived, date) && RewardsFresh(c, s, date))
  }

  /** What holds of the views in every state: unconditionally, decisions, base records, rankings and
      rewards fit together; and as long as time texts name the UTC date, everything equals what a
      rebuild from the stored events and evidence would give. */
  ghost predicate ViewsOk(c: Config, s: State) {
    ViewsPending(c, s, {}, {}, {})
  }

  // ---- The empty store ----

  lemma EmptyViews(c: Config, seed: map<string, Node>)
    ensures ViewsOk(c, Fresh(seed))
  {
    hide RankingStands, RewardsFollow, RankingCurrent, RewardsCurrent, SummaryOf, GradedAs, InScoreWindow;
    var s := Fresh(seed);
    forall date
      ensures RankingStands(RegistrationsOf(s.nodes), s.derived, date) && RewardsFollow(c.nominalPool, s.derived, date)
      ensures RankingFresh(s, date) && RewardsFresh(c, s, date)
    {
      EmptyDate(c.nominalPool, s, date);
      StandsWhenCurrent(s.evidence, RegistrationsOf(s.nodes), s.derived, date);
    }
  }

  lemma EmptyDate(pool: real, s: State, date: int)
    requires s.derived == NOTHING_DERIVED
    ensures RewardsFollow(pool, s.derived, date)
    ensures RankingCurrent(s.evidence, RegistrationsOf(s.nodes), s.derived, date)
    ensures RewardsCurrent(pool, s.evidence, s.derived, date)
  {
    hide IsLatest, RewardFound;
    var v := s.derived;
    assert OnDate(v.bases, date) == map[] && OnDate(v.rankings, date) == map[];
    assert OnDate(v.eligibility, date) == map[] && OnDate(v.allocations, date) == map[];
    EnumerationMultiset(RankingsOn(v, date), {});
    var none := RankLooks([], [], [], []);
    EnumerationMultiset(Listing(map[]), {});
    EnumerationMultiset(Ranked(map[], RegistrationsOf(s.nodes), none), {});
    assert RankingAgrees(s.evidence, RegistrationsOf(s.nodes), v, date, none, []);
    assert RewardRows(pool, v, date, []);
    assert RewardsAgree(pool, s.evidence, v, date, []);
  }

  // ---- Steps that leave the views alone ----

  /** Registration times of ranked nodes are kept. */
  ghost predicate RegistrationsKept(before: map<string, Node>, after: map<string, Node>) {
    forall n :: n in before && before[n].registeredAt.Some? ==> n in after && after[n].registeredAt == before[n].registeredAt
  }

  lemma RankedNodesRegistered(s: State, date: int)
    requires GradesOk(s.nodes, s.derived) && KeyedBy(s.derived.bases, BaseKey)
    ensures forall b :: b in OnDate(s.derived.bases, date).Values ==> b.nodeId in s.nodes && s.nodes[b.nodeId].registeredAt.Some?
  {
    hide GradedAs, BaseOf, InScoreWindow;
    forall b | b in OnDate(s.derived.bases, date).Values
      ensures b.nodeId in s.nodes && s.nodes[b.nodeId].registeredAt.Some?
    {
      var k :| k in OnDate(s.derived.bases, date) && OnDate(s.derived.bases, date)[k] == b;
      assert k in s.derived.bases && s.derived.bases[k] == b;
    }
  }

  /** Enrollments, heartbeats, checks, voting keys, telemetry, alerts: nothing that the views read
      changes, except that a node's grades may be due. */
  lemma ViewsUnmoved(c: Config, s: State, t: State, keys: set<NodeDate>)
    requires ViewsOk(c, s) && KeyedBy(s.derived.bases, BaseKey)
    requires t.derived == s.derived && t.evidence.(votingKeys := s.evidence.votingKeys) == s.evidence && t.probes == s.probes
    requires RegistrationsKept(s.nodes, t.nodes)
    ensures ViewsPending(c, t, keys, {}, {})
  {
    hide RankingStands, RewardsFollow, RewardsCurrent, SummaryOf, RankingCurrent, AlignedOn, StillFound, GradesOk, RegistrationsKept;
    assert forall k :: SummaryFresh(c, s, k) ==> SummaryFresh(c, t, k);
    GradesUnmoved(s, t);
    forall date
      ensures RankingStands(RegistrationsOf(t.nodes), t.derived, date) && RankingFresh(t, date)
      ensures RewardsFollow(c.nominalPool, t.derived, date) && RewardsFresh(c, t, date)
    {
      assert RankingFresh(s, date) && RewardsFresh(c, s, date);
      RegistrationsStay(s, t, date);
      StandsKept(RegistrationsOf(s.nodes), RegistrationsOf(t.nodes), s.derived, date);
      if AlignedOn(s.evidence.placements, date) {
        NothingLost(s.evidence.placements, date);
        RankingKept(s.evidence, t.evidence, RegistrationsOf(s.nodes), RegistrationsOf(t.nodes), s.derived, t.derived, date);
      }
      if RewardEvidenceAligned(s.evidence, date) {
        NothingLost(s.evidence.groups, date);
        NothingLost(s.evidence.domains, date);
        NothingLost(s.evidence.planes, date);
        RewardsKept(c.nominalPool, s.evidence, t.evidence, s.derived, t.derived, date);
      }
    }
  }

  lemma StandsKept(registered: Registrations, later: Registrations, v: Derived, date: int)
    requires RankingStands(registered, v, date) && KeyedBy(v.bases, BaseKey)
    requires forall b :: b in OnDate(v.bases, date).Values ==>
      b.nodeId in registered && b.nodeId in later && later[b.nodeId] == registered[b.nodeId]
    ensures RankingStands(later, v, date)
  {
    hide RankingCurrent, StillFound;
    var e :| RankingCurrent(e, registered, v, date);
    NothingLost(e.placements, date);
    RankingKept(e, e, registered, later, v, v, date);
  }

  lemma GradesUnmoved(s: State, t: State)
    requires GradesOk(s.nodes, s.derived) && t.derived == s.derived && RegistrationsKept(s.nodes, t.nodes)
    ensures GradesOk(t.nodes, t.derived)
  {
    hide GradedAs, InScoreWindow, BaseOf, CountsOrdered;
  }

  lemma RegistrationsStay(s: State, t: State, date: int)
    requires GradesOk(s.nodes, s.derived) && KeyedBy(s.derived.bases, BaseKey) && RegistrationsKept(s.nodes, t.nodes)
    ensures forall b :: b in OnDate(s.derived.bases, date).Values ==>
      b.nodeId in RegistrationsOf(s.nodes) && b.nodeId in RegistrationsOf(t.nodes)
      && RegistrationsOf(t.nodes)[b.nodeId] == RegistrationsOf(s.nodes)[b.nodeId]
  {
    hide GradesOk;
    RankedNodesRegistered(s, date);
  }

  /** What is due stays covered when more is called due. */
  lemma MorePending(c: Config, s: State, keys: set<NodeDate>, rankDates: set<int>, rewardDates: set<int>, more: set<int>)
    requires ViewsPending(c, s, keys, rankDates, rewardDates)
    ensures ViewsPending(c, s, keys, rankDates, rewardDates + more)
  {
    hide RankingStands, RewardsFollow, SummaryFresh, RankingFresh, RewardsFresh, GradesOk;
  }

  // ---- Noting an event ----

  /** A stored probe leaves only the summary of its node and date to be rebuilt. */
  lemma ProbeNoted(c: Config, s: State, e: Observation<Probe>)
    requires ViewsOk(c, s) && e.ref !in s.probes && Acceptable(e.what)
    ensures ViewsPending(c, s.(probes := s.probes[e.ref := e]), {(e.nodeId, UtcDate(e.observedAt))}, {}, {})
  {
    hide RankingStands, RewardsFollow, RewardsCurrent, SummaryOf, GradesOk, RankingCurrent;
    var t := s.(probes := s.probes[e.ref := e]);
    forall k: NodeDate | k != (e.nodeId, UtcDate(e.observedAt))
      ensures SummaryFresh(c, t, k)
    {
      assert SummaryFresh(c, s, k);
      if AlignedFor(t.probes, k.0, k.1) {
        assert t.probes[e.ref] == e;
        assert AlignedFor(s.probes, k.0, k.1) by {
          assert forall ref :: ref in s.probes ==> t.probes[ref] == s.probes[ref];
        }
        OtherSummariesUnchanged(c.policy, s.probes, e, k.0, k.1);
      }
    }
    assert forall date :: RankingFresh(s, date) ==> RankingFresh(t, date);
    assert forall date :: RewardsFresh(c, s, date) ==> RewardsFresh(c, t, date);
  }

  lemma StillAligned<X(!new)>(m: map<string, Observation<X>>, e: Observation<X>, n: map<string, Observation<X>>, date: int)
    requires e.ref !in m && n == m[e.ref := e] && AlignedOn(n, date) && date != UtcDate(e.observedAt)
    ensures AlignedOn(m, date) && StillFound(m, n, date)
  {
    assert n[e.ref] == e;
    forall ref | ref in m && TextDate(m[ref].observedAt) == date
      ensures UtcDate(m[ref].observedAt) == date
    {
      assert n[ref] == m[ref];
    }
    StillFoundElsewhere(m, e, date);
  }

  /** Stored placement evidence leaves only the ranking of its date to be rebuilt. */
  lemma PlacementNoted(c: Config, s: State, e: Observation<Placement>)
    requires ViewsOk(c, s) && KeyedBy(s.derived.bases, BaseKey) && e.ref !in s.evidence.placements
    ensures ViewsPending(c, s.(evidence := s.evidence.(placements := s.evidence.placements[e.ref := e])), {}, {UtcDate(e.observedAt)}, {})
  {
    hide RankingStands, RewardsFollow, SummaryOf, GradesOk, RankingCurrent, StillFound, RewardFound;
    var t := s.(evidence := s.evidence.(placements := s.evidence.placements[e.ref := e]));
    assert forall k :: SummaryFresh(c, s, k) ==> SummaryFresh(c, t, k);
    forall date
      ensures RewardsFresh(c, t, date)
      ensures date != UtcDate(e.observedAt) ==> RankingFresh(t, date)
    {
      assert RankingFresh(s, date) && RewardsFresh(c, s, date);
      if RewardEvidenceAligned(t.evidence, date) {
        NothingLost(t.evidence.groups, date);
        NothingLost(t.evidence.domains, date);
        NothingLost(t.evidence.planes, date);
        RewardsKept(c.nominalPool, s.evidence, t.evidence, s.derived, t.derived, date);
      }
      if AlignedOn(t.evidence.placements, date) && date != UtcDate(e.observedAt) {
        StillAligned(s.evidence.placements, e, t.evidence.placements, date);
        RankedNodesRegistered(s, date);
        RankingKept(s.evidence, t.evidence, RegistrationsOf(s.nodes), RegistrationsOf(t.nodes), s.derived, t.derived, date);
      }
    }
  }

  lemma NothingLost<X(!new)>(m: map<string, Observation<X>>, date: int)
    ensures StillFound(m, m, date)
  {
  }

  ghost predicate RewardScansSurvive(before: Evidence, after: Evidence, date: int) {
    && StillFound(before.groups, after.groups, date)
    && StillFound(before.domains, after.domains, date)
    && StillFound(before.planes, after.planes, date)
  }

  /** Stored group, domain or control-plane evidence leaves only the rewards of its date to be rebuilt. */
  lemma RewardEvidenceNoted(c: Config, s: State, after: Evidence, date: int)
    requires ViewsOk(c, s) && after.placements == s.evidence.placements
    requires forall d :: d != date && RewardEvidenceAligned(after, d) ==> RewardEvidenceAligned(s.evidence, d) && RewardScansSurvive(s.evidence, after, d)
    requires KeyedBy(s.derived.bases, BaseKey)
    ensures ViewsPending(c, s.(evidence := after), {}, {}, {date})
  {
    hide RankingStands, RewardsFollow, SummaryOf, GradesOk, RankingCurrent, StillFound, RewardFound, AlignedOn, RewardsCurrent;
    var t := s.(evidence := after);
    assert forall k :: SummaryFresh(c, s, k) ==> SummaryFresh(c, t, k);
    forall d
      ensures RankingFresh(t, d)
      ensures d != date ==> RewardsFresh(c, t, d)
    {
      assert RankingFresh(s, d) && RewardsFresh(c, s, d);
      if AlignedOn(after.placements, d) {
        NothingLost(after.placements, d);
        RankedNodesRegistered(s, d);
        RankingKept(s.evidence, after, RegistrationsOf(s.nodes), RegistrationsOf(t.nodes), s.derived, t.derived, d);
      }
      if RewardEvidenceAligned(after, d) && d != date {
        RewardsKept(c.nominalPool, s.evidence, after, s.derived, t.derived, d);
      }
    }
  }

  // ---- Rebuilding ----

  ghost predicate TablesKeyed(v: Derived) {
    && KeyedBy(v.bases, BaseKey) && KeyedBy(v.rankings, RankingKey)
    && KeyedBy(v.eligibility, EligibilityKey) && KeyedBy(v.allocations, AllocationKey)
  }

  lemma RewardsRebuilt(c: Config, s: State, date: int, looks: seq<RewardLook>)
    requires ViewsPending(c, s, {}, {}, {date}) && TablesKeyed(s.derived)
    requires RewardsFound(s.evidence, RankingsOn(s.derived, date), date, looks)
    ensures ViewsOk(c, RebuildRewards(c, s, date, looks))
    ensures TablesKeyed(RebuildRewards(c, s, date, looks).derived)
  {
    hide SummaryOf, RankingCurrent, StillFound, RewardFound, AlignedOn, RewardsFound, EligibilityStep, RewardRows, GradesOk;
    hide Sorting, RankedList, Enumerates, BaseOf;
    var t := RebuildRewards(c, s, date, looks);
    StepKeepsRest(c.nominalPool, s.derived, date, RankingsOn(s.derived, date), looks);
    SameGrades(s.nodes, s.derived, t.derived);
    StandingRowsMatch(RegistrationsOf(s.nodes), s.derived, date);
    EligibilityStepEstablishes(c.nominalPool, s.evidence, s.derived, date, looks);
    assert RewardRows(c.nominalPool, t.derived, date, looks);
    assert forall k :: SummaryFresh(c, s, k) ==> SummaryFresh(c, t, k);
    forall d
      ensures RankingStands(RegistrationsOf(t.nodes), t.derived, d) && RankingFresh(t, d)
      ensures RewardsFollow(c.nominalPool, t.derived, d) && RewardsFresh(c, t, d)
    {
      assert RankingStands(RegistrationsOf(s.nodes), s.derived, d) && RankingFresh(s, d);
      SameTablesSameRanking(s.evidence, RegistrationsOf(s.nodes), s.derived, t.derived, d);
      SameTablesStand(RegistrationsOf(s.nodes), s.derived, t.derived, d);
      if d != date {
        assert RewardsFollow(c.nominalPool, s.derived, d) && RewardsFresh(c, s, d);
        assert SameRewards(t.derived, s.derived, d);
        SameRowsFollow(c.nominalPool, s.derived, t.derived, s.evidence, d);
      }
    }
  }

  lemma SameGrades(nodes: map<string, Node>, v: Derived, w: Derived)
    requires w.summaries == v.summaries && w.decisions == v.decisions && w.bases == v.bases
    requires GradesOk(nodes, v)
    ensures GradesOk(nodes, w)
  {
  }

  /** Rebuilding the rewards touches no table above them. */
  lemma StepKeepsRest(pool: real, v: Derived, date: int, rankings: seq<Ranking>, looks: seq<RewardLook>)
    ensures var w := EligibilityStep(pool, v, date, rankings, looks);
      w.summaries == v.summaries && w.decisions == v.decisions && w.bases == v.bases && w.rankings == v.rankings
  {
  }

  lemma SameTablesSameRanking(e: Evidence, registered: Registrations, v: Derived, w: Derived, date: int)
    requires SameRanking(v, w, date)
    ensures RankingCurrent(e, registered, v, date) ==> RankingCurrent(e, registered, w, date)
  {
    hide Sorting, FromRows, RankingTable, PlacementsFound;
    if RankingCurrent(e, registered, v, date) {
      var looks, groups :| RankingAgrees(e, registered, v, date, looks, groups);
      assert RankingAgrees(e, registered, w, date, looks, groups);
    }
  }

  lemma SameTablesStand(registered: Registrations, v: Derived, w: Derived, date: int)
    requires SameRanking(v, w, date) && RankingStands(registered, v, date)
    ensures RankingStands(registered, w, date)
  {
    hide RankingCurrent;
    var e :| RankingCurrent(e, registered, v, date);
    SameTablesSameRanking(e, registered, v, w, date);
  }

  lemma SameRowsFollow(pool: real, v: Derived, w: Derived, e: Evidence, date: int)
    requires OnDate(v.rankings, date) == OnDate(w.rankings, date) && SameRewards(v, w, date)
    ensures RewardsFollow(pool, v, date) ==> RewardsFollow(pool, w, date)
    ensures RewardsCurrent(pool, e, v, date) ==> RewardsCurrent(pool, e, w, date)
  {
    hide Sorting, FromRows, RewardFound, NewEligibility;
    if RewardsFollow(pool, v, date) {
      var looks :| RewardRows(pool, v, date, looks);
      assert RewardRows(pool, w, date, looks);
    }
    if RewardsCurrent(pool, e, v, date) {
      var looks :| RewardsAgree(pool, e, v, date, looks);
      assert RewardsAgree(pool, e, w, date, looks);
    }
  }

  lemma RankingRebuilt(c: Config, s: State, date: int, looks: RankLooks)
    requires ViewsPending(c, s, {}, {date}, {date}) && TablesKeyed(s.derived)
    requires RankLooksFound(s.evidence, OnDate(s.derived.bases, date), RegistrationsOf(s.nodes), date, looks)
    ensures ViewsOk(c, RebuildRanking(c, s, date, looks))
    ensures TablesKeyed(RebuildRanking(c, s, date, looks).derived)
  {
    hide SummaryOf, RankingCurrent, StillFound, RewardFound, AlignedOn, RankingStep, RankLooksFound, GradesOk, RewardsCurrent;
    hide RewardRows;
    var t := RebuildRanking(c, s, date, looks);
    RankingStepKeepsRest(c.nominalPool, s.derived, RegistrationsOf(s.nodes), date, looks);
    SameGrades(s.nodes, s.derived, t.derived);
    RankingStepEstablishes(c.nominalPool, s.evidence, RegistrationsOf(s.nodes), s.derived, date, looks);
    StandsWhenCurrent(s.evidence, RegistrationsOf(s.nodes), t.derived, date);
    CurrentFollows(c.nominalPool, s.evidence, t.derived, date);
    assert forall k :: SummaryFresh(c, s, k) ==> SummaryFresh(c, t, k);
    forall d
      ensures RankingStands(RegistrationsOf(t.nodes), t.derived, d) && RankingFresh(t, d)
      ensures RewardsFollow(c.nominalPool, t.derived, d) && RewardsFresh(c, t, d)
    {
      if d != date {
        assert RankingStands(RegistrationsOf(s.nodes), s.derived, d) && RankingFresh(s, d);
        assert RewardsFollow(c.nominalPool, s.derived, d) && RewardsFresh(c, s, d);
        assert SameRanking(t.derived, s.derived, d) && SameRewards(t.derived, s.derived, d);
        SameTablesSameRanking(s.evidence, RegistrationsOf(s.nodes), s.derived, t.derived, d);
        SameTablesStand(RegistrationsOf(s.nodes), s.derived, t.derived, d);
        SameRowsFollow(c.nominalPool, s.derived, t.derived, s.evidence, d);
      }
    }
  }

  lemma StandsWhenCurrent(e: Evidence, registered: Registrations, v: Derived, date: int)
    requires RankingCurrent(e, registered, v, date)
    ensures RankingStands(registered, v, date)
  {
  }

  lemma RankingStepKeepsRest(pool: real, v: Derived, registered: Registrations, date: int, looks: RankLooks)
    ensures var w := RankingStep(pool, v, registered, date, looks);
      w.summaries == v.summaries && w.decisions == v.decisions && w.bases == v.bases
  {
    hide EligibilityStep;
    var rows := NewRankings(OnDate(v.bases, date), registered, looks);
    StepKeepsRest(pool, v.(rankings := Replaced(v.rankings, date, rows, RankingKey)), date, rows, looks.rewards);
  }

  lemma CurrentFollows(pool: real, e: Evidence, v: Derived, date: int)
    requires RewardsCurrent(pool, e, v, date)
    ensures RewardsFollow(pool, v, date)
  {
    var looks :| RewardsAgree(pool, e, v, date, looks);
    assert RewardRows(pool, v, date, looks);
  }

  // ---- Grading a node ----

  lemma GradedOk(c: Config, s: State, nodeId: string, date: int, now: int, looks: ArtifactLooks)
    requires AllAcceptable(s.probes) && GradesOk(s.nodes, s.derived)
    ensures GradesOk(s.nodes, GradeStep(c, s, nodeId, date, now, looks))
  {
    hide SummaryOf, BaseOf, InScoreWindow, CountBeats, AllAcceptable, Failures, GradesOk, DecisionOf, Regraded, CountsOrdered;
    var summary := SummaryOf(c.policy, s.probes, nodeId, date);
    var readings := ReadingsOf(s, nodeId, date, now, looks);
    var decision := DecisionOf(summary, readings);
    assert GradedAs(summary, decision);
    SummaryCountsOrdered(c.policy, s.probes, nodeId, date);
    if decision.qualified {
      QualifiedScoreWindow(c.policy, s.probes, nodeId, date, readings);
      QualifiedNodeIsRegistered(summary, readings);
    }
    RegradedOk(s.nodes, s.derived, (nodeId, date), summary, decision);
  }

  lemma RegradedOk(nodes: map<string, Node>, v: Derived, key: NodeDate, summary: Summary, decision: Decision)
    requires GradesOk(nodes, v) && GradedAs(summary, decision) && CountsOrdered(summary)
    requires decision.qualified ==> InScoreWindow(BaseOf(summary, decision))
    requires decision.qualified ==> key.0 in nodes && nodes[key.0].registeredAt.Some?
    ensures GradesOk(nodes, Regraded(v, key, summary, decision))
  {
    hide BaseOf, InScoreWindow, GradedAs, CountsOrdered;
  }

  lemma QualifiedNodeIsRegistered(s: Summary, r: Readings)
    requires DecisionOf(s, r).qualified
    ensures r.registeredAt.Some?
  {
  }

  /** Grading a node settles its summary and leaves the ranking and rewards of the date to be rebuilt. */
  lemma Graded(c: Config, s: State, nodeId: string, date: int, now: int, looks: ArtifactLooks)
    requires ViewsPending(c, s, {(nodeId, date)}, {}, {}) && TablesKeyed(s.derived)
    ensures var v := GradeStep(c, s, nodeId, date, now, looks);
      ViewsPending(c, s.(derived := v), {}, {date}, {date}) && TablesKeyed(v)
  {
    hide SummaryOf, GradesOk, RankingCurrent, RewardsCurrent, RankingStands, RewardsFollow, DecisionOf, AllAcceptable, AlignedOn, BaseOf;
    var v := GradeStep(c, s, nodeId, date, now, looks);
    var t := s.(derived := v);
    GradedOk(c, s, nodeId, date, now, looks);
    GradeKeepsTables(c, s, nodeId, date, now, looks);
    forall k
      ensures SummaryFresh(c, t, k)
    {
      assert k != (nodeId, date) ==> SummaryFresh(c, s, k);
    }
    forall d | d != date
      ensures RankingStands(RegistrationsOf(t.nodes), v, d) && RankingFresh(t, d)
      ensures RewardsFollow(c.nominalPool, v, d) && RewardsFresh(c, t, d)
    {
      assert RankingStands(RegistrationsOf(s.nodes), s.derived, d) && RankingFresh(s, d);
      assert RewardsFollow(c.nominalPool, s.derived, d) && RewardsFresh(c, s, d);
      SameTablesSameRanking(s.evidence, RegistrationsOf(s.nodes), s.derived, v, d);
      SameTablesStand(RegistrationsOf(s.nodes), s.derived, v, d);
      SameRowsFollow(c.nominalPool, s.derived, v, s.evidence, d);
    }
  }

  lemma GradeKeepsTables(c: Config, s: State, nodeId: string, date: int, now: int, looks: ArtifactLooks)
    requires TablesKeyed(s.derived)
    ensures var v := GradeStep(c, s, nodeId, date, now, looks);
      && TablesKeyed(v)
      && forall d :: d != date ==> SameRanking(s.derived, v, d) && SameRewards(s.derived, v, d)
  {
    hide TallyOf, Grade, Failures, ReadingsOf, Clamp, TablesKeyed, SameRanking, SameRewards;
    var summary := SummaryOf(c.policy, s.probes, nodeId, date);
    SummaryNamesItsDay(c.policy, s.probes, nodeId, date);
    RegradedTables(s.derived, (nodeId, date), summary, DecisionOf(summary, ReadingsOf(s, nodeId, date, now, looks)));
  }

  lemma SummaryNamesItsDay(policy: Policy, probes: Probes, nodeId: string, date: int)
    ensures SummaryKey(SummaryOf(policy, probes, nodeId, date)) == (nodeId, date)
  {
  }

  lemma RegradedTables(v: Derived, key: NodeDate, summary: Summary, decision: Decision)
    requires TablesKeyed(v) && SummaryKey(summary) == key
    ensures TablesKeyed(Regraded(v, key, summary, decision))
    ensures forall d :: d != key.1 ==> SameRanking(v, Regraded(v, key, summary, decision), d) && SameRewards(v, Regraded(v, key, summary, decision), d)
  {
    hide Clamp;
    var w := Regraded(v, key, summary, decision);
    assert BaseKey(BaseOf(summary, decision)) == key;
    forall d | d != key.1
      ensures SameRanking(v, w, d) && SameRewards(v, w, d)
    {
      hide BaseOf;
      assert OnDate(w.bases, d) == OnDate(v.bases, d);
    }
  }

  /** `updateQualificationArtifacts` settles everything that the noted event left to be rebuilt. */
  lemma ArtifactsRebuilt(c: Config, s: State, nodeId: string, date: int, env: Env)
    requires ViewsPending(c, s, {(nodeId, date)}, {}, {}) && TablesKeyed(s.derived)
    requires LooksFound(c, s, Artifacts(nodeId, date), env)
    ensures var t := s.(derived := ArtifactStep(c, s, nodeId, date, env.now, env.looks));
      ViewsOk(c, t) && TablesKeyed(t.derived)
  {
    hide GradeStep, RankLooksFound, ViewsPending, TablesKeyed, RankingStep;
    var v := GradeStep(c, s, nodeId, date, env.now, env.looks);
    Graded(c, s, nodeId, date, env.now, env.looks);
    RankingRebuilt(c, s.(derived := v), date, env.looks.ranks);
  }
}
