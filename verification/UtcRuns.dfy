/** Runs in which every accepted time text is in UTC: then everything agrees with recomputation, on every
    date, without any condition. */
module UtcRuns {
  import opened Texts
  import opened Records
  import opened Tables
  import opened RankingRules
  import opened AntiConcentration
  import opened ProbeSummary
  import opened PortalState
  import opened Pipeline
  import opened Snapshots
  import opened Portal
  import opened Views
  import opened Gradings
  import opened Reachable
  import opened PortalRuns
  import opened Guarantees
  import opened Accounts
  import opened EvidenceAgreement

  /** A text with offset zero, however that is written. */
  predicate InUtc(t: Stamp) {
    OffsetSeconds(t.zone) == 0
  }

  ghost predicate UtcTable<X>(m: map<string, Observation<X>>) {
    forall ref :: ref in m ==> InUtc(m[ref].observedAt)
  }

  ghost predicate UtcStore(s: State) {
    && UtcTable(s.probes) && UtcTable(s.checks)
    && UtcTable(s.evidence.groups) && UtcTable(s.evidence.votingKeys) && UtcTable(s.evidence.placements)
    && UtcTable(s.evidence.domains) && UtcTable(s.evidence.planes)
  }

  predicate UtcText(t: TimeText) {
    t.At? ==> InUtc(t.t)
  }

  /** The time texts by which observations are found. */
  predicate UtcRequest(q: Request) {
    match q
    case SendProbe(r) => UtcText(r.observedAt)
    case SendCheck(r) => UtcText(r.checkedAt)
    case SendEvidence(r) => UtcText(r.header.observedAt)
    case _ => true
  }

  ghost predicate UtcRun(run: seq<Event>) {
    forall i :: 0 <= i < |run| ==> UtcRequest(run[i].q)
  }

  // ---- UTC texts are aligned ----

  lemma UtcAligned<X>(m: map<string, Observation<X>>)
    requires UtcTable(m)
    ensures forall date :: AlignedOn(m, date)
    ensures forall nodeId, date :: AlignedFor(m, nodeId, date)
  {
    forall ref | ref in m
      ensures TextDate(m[ref].observedAt) == UtcDate(m[ref].observedAt)
    {
      UtcTextAligned(m[ref].observedAt);
    }
  }

  lemma UtcTextAligned(t: Stamp)
    requires InUtc(t)
    ensures Aligned(t)
  {
  }

  // ---- Every step keeps the store in UTC ----

  lemma EvidenceUtc(c: Config, s: State, r: EvidenceRequest, now: nat)
    requires UtcStore(s) && UtcText(r.header.observedAt) && EvidenceError(c, s, r, now).None?
    ensures UtcStore(s.(evidence := WithEvidence(s.evidence, r)))
  {
    hide Trim, ReviewOf, Upper, Lower;
  }

  lemma NotedUtc(c: Config, s: State, q: Request, now: nat)
    requires UtcStore(s) && UtcRequest(q) && RequestError(c, s, q, now).None?
    ensures UtcStore(Noted(c, s, q, now))
  {
    hide WithEvidence, EvidenceError, HeartbeatError, TelemetryError, EnrollError;
    if q.SendEvidence? {
      EvidenceUtc(c, s, q.evidence, now);
    }
  }

  lemma SameAccountsUtc(s: State, t: State)
    requires UtcStore(s) && SameAccounts(t, s)
    ensures UtcStore(t)
  {
    hide UtcTable;
  }

  ghost predicate UtcSys(seed: map<string, Node>, sys: Sys) {
    UtcStore(sys.mem) && UtcStore(Back(seed, sys.disk))
  }

  lemma UtcStep(c: Config, seed: map<string, Node>, sys: Sys, e: Event)
    requires SeedOk(seed) && SysOk(c, seed, sys) && Possible(c, sys, e) && UtcSys(seed, sys) && UtcRequest(e.q)
    ensures UtcSys(seed, Step(c, seed, sys, e.q, e.env))
  {
    hide SysOk, Possible, Handle, RequestError, Noted, Back, UtcStore, UtcRequest;
    var (after, reply) := Handle(c, seed, sys, e.q, e.env);
    HandlesAccounts(c, seed, sys, e);
    if RequestError(c, sys.mem, e.q, e.env.now).None? && !e.q.Restart? {
      NotedUtc(c, sys.mem, e.q, e.env.now);
      SameAccountsUtc(Noted(c, sys.mem, e.q, e.env.now), after.mem);
      if after.disk != sys.disk {
        SameAccountsUtc(Noted(c, sys.mem, e.q, e.env.now), Back(seed, after.disk));
      }
    }
  }

  lemma {:induction false} UtcThroughout(c: Config, seed: map<string, Node>, run: seq<Event>)
    requires SeedOk(seed) && Lawful(c, seed, run) && UtcRun(run)
    ensures UtcSys(seed, After(c, seed, run))
  {
    hide SysOk, Possible, Step, SeedOk, UtcSys, UtcRequest;
    if run == [] {
      StartUtc(seed);
    } else {
      var front := run[..|run| - 1];
      assert forall i :: 0 <= i < |front| ==> front[i] == run[i];
      UtcThroughout(c, seed, front);
      RunOk(c, seed, front);
      assert UtcRequest(run[|run| - 1].q);
      UtcStep(c, seed, After(c, seed, front), run[|run| - 1]);
    }
  }

  lemma StartUtc(seed: map<string, Node>)
    ensures UtcSys(seed, Start(seed))
  {
  }

  /** Every stored summary is the recount, and every date's ranking, eligibility and allocations are what
      a rebuild gives. */
  lemma UtcRunsAgree(c: Config, seed: map<string, Node>, run: seq<Event>)
    requires SeedOk(seed) && Lawful(c, seed, run) && UtcRun(run)
    ensures var s := After(c, seed, run).mem;
      SummariesExact(c, s) && RankingsCurrent(s) && AllRewardsCurrent(c, s)
  {
    hide After, Lawful, UtcRun, RankingCurrent, RewardsCurrent, SummaryOf, AlignedOn, AlignedFor, Back, DecisionsRest, BasesFollow, UtcTable;
    UtcThroughout(c, seed, run);
    ReachableViewsAgree(c, seed, run);
    var s := After(c, seed, run).mem;
    UtcAligned(s.probes);
    UtcAligned(s.evidence.placements);
    UtcAligned(s.evidence.groups);
    UtcAligned(s.evidence.domains);
    UtcAligned(s.evidence.planes);
    assert forall date :: RewardEvidenceAligned(s.evidence, date);
  }

  /** When no two checks and no two voting keys of a node share a time, the hardware and voting-key gates
      of every stored decision are those of the latest stored check and key. */
  lemma UtcGatesCurrent(c: Config, seed: map<string, Node>, run: seq<Event>)
    requires SeedOk(seed) && Lawful(c, seed, run) && UtcRun(run)
    requires var s := After(c, seed, run).mem; Determined(s.checks) && Determined(s.evidence.votingKeys)
    ensures HardwareCurrent(After(c, seed, run).mem) && KeysCurrent(After(c, seed, run).mem)
  {
    hide After, Lawful, UtcRun, SummariesRecounted, BasesFollow, DatesRebuilt, Determined, DecisionShown, Back, UtcTable, HardwareCurrent, KeysCurrent;
    UtcThroughout(c, seed, run);
    ReachableViewsAgree(c, seed, run);
    GatesCurrent(After(c, seed, run).mem);
  }

  lemma GatesCurrent(s: State)
    requires DecisionsRest(s) && UtcTable(s.checks) && UtcTable(s.evidence.votingKeys)
    requires Determined(s.checks) && Determined(s.evidence.votingKeys)
    ensures HardwareCurrent(s) && KeysCurrent(s)
  {
    hide Determined, IsLatest, AlignedFor, HasTwoBeats, ObservedBy, UtcTable;
    UtcAligned(s.checks);
    UtcAligned(s.evidence.votingKeys);
    forall k | k in s.derived.decisions
      ensures forall found :: IsLatest(s.checks, k.0, k.1, found) ==> s.derived.decisions[k].hardwarePassed == CheckPasses(found)
      ensures forall found :: IsLatest(s.evidence.votingKeys, k.0, k.1, found) ==> s.derived.decisions[k].votingKeyPassed == KeyPasses(found)
    {
      assert DecisionShown(s, k);
      var check, votingKey, anchor :|
        && (AlignedFor(s.checks, k.0, k.1) ==> IsLatest(s.checks, k.0, k.1, check))
        && (AlignedFor(s.evidence.votingKeys, k.0, k.1) ==> IsLatest(s.evidence.votingKeys, k.0, k.1, votingKey))
        && anchor <= EndOfDate(k.1)
        && GatesShown(s, k, check, votingKey, anchor);
      forall found | IsLatest(s.checks, k.0, k.1, found)
        ensures found == check
      {
        LatestUnique(s.checks, k.0, k.1, found, check);
      }
      forall found | IsLatest(s.evidence.votingKeys, k.0, k.1, found)
        ensures found == votingKey
      {
        LatestUnique(s.evidence.votingKeys, k.0, k.1, found, votingKey);
      }
    }
  }

  // ---- The first text of another date, after a run in UTC ----

  /** A step that accepts evidence other than a voting key leaves in memory exactly the settled store. */
  lemma EvidenceStepSettles(c: Config, seed: map<string, Node>, sys: Sys, r: EvidenceRequest, env: Env)
    requires !r.VotingKeyRequest? && EvidenceError(c, sys.mem, r, env.now).None?
    ensures Step(c, seed, sys, SendEvidence(r), env).mem == Settled(c, sys.mem, SendEvidence(r), env)
  {
    hide SnapshotOf, Settled, SummaryAlerts, FlagsStep, ScanStep, EvidenceError;
  }

  lemma AfterOneMore(c: Config, seed: map<string, Node>, run: seq<Event>, e: Event)
    ensures After(c, seed, run + [e]) == Step(c, seed, After(c, seed, run), e.q, e.env)
  {
    hide Step;
    assert (run + [e])[..|run|] == run;
  }

  /** After a run in UTC, an accepted placement keeps the rankings of all dates current if and only if it
      is harmless. */
  lemma ReachablePlacementKeepsRankingsIff(c: Config, seed: map<string, Node>, run: seq<Event>, r: EvidenceRequest, env: Env, looks: seq<Look>)
    requires SeedOk(seed) && Lawful(c, seed, run) && UtcRun(run)
    requires Possible(c, After(c, seed, run), Event(SendEvidence(r), env))
    requires r.PlacementRequest? && EvidenceError(c, After(c, seed, run).mem, r, env.now).None?
    requires Determined(WithEvidence(After(c, seed, run).mem.evidence, r).placements)
    requires var s, date := After(c, seed, run).mem, TextDate(r.header.observedAt.t);
      PlacementsFound(s.evidence, Listing(OnDate(s.derived.bases, date)), date, looks)
    ensures RankingsCurrent(After(c, seed, run + [Event(SendEvidence(r), env)]).mem)
      <==> PlacementHarmless(After(c, seed, run).mem, WithEvidence(After(c, seed, run).mem.evidence, r).placements[r.header.ref], looks)
  {
    hide After, Lawful, UtcRun, RankingsCurrent, AllRewardsCurrent, SummariesExact, Determined, PlacementsFound, PlacementHarmless, EvidenceError, Settled, LooksFound, Noted, Step, Sorting;
    hide SavedOk, ViewsOk, GroundedExcept;
    RunOk(c, seed, run);
    UtcRunsAgree(c, seed, run);
    var sys := After(c, seed, run);
    MemOk(c, seed, sys);
    MemTablesKeyed(c, seed, sys.mem);
    AfterOneMore(c, seed, run, Event(SendEvidence(r), env));
    EvidenceStepSettles(c, seed, sys, r, env);
    PlacementKeepsRankingsIff(c, sys.mem, r, env, looks);
  }

  lemma MemTablesKeyed(c: Config, seed: map<string, Node>, s: State)
    requires StateOk(c, seed, s)
    ensures TablesKeyed(s.derived) && AllRanked(s.derived)
  {
    hide ViewsOk, NodesOk, EventsOk, LogsOk, EvidenceOk, TablesKeyed, RankedList, Sorting, RewardRows, RowsMatch;
    KeyedTables(s.derived, seed.Keys);
    forall date
      ensures RankedList(RankingsOn(s.derived, date), date)
    {
      var _ := DateRanked(c, seed, s, date);
    }
  }

  /** After a run in UTC, accepted group, domain or control-plane evidence keeps the rewards of all dates
      current if and only if it is harmless. */
  lemma ReachableEvidenceKeepsRewardsIff(c: Config, seed: map<string, Node>, run: seq<Event>, r: EvidenceRequest, env: Env, looks: seq<RewardLook>)
    requires SeedOk(seed) && Lawful(c, seed, run) && UtcRun(run)
    requires Possible(c, After(c, seed, run), Event(SendEvidence(r), env))
    requires IsRewardEvidence(r) && EvidenceError(c, After(c, seed, run).mem, r, env.now).None?
    requires RewardsDetermined(After(c, seed, run).mem.evidence) && RewardsDetermined(WithEvidence(After(c, seed, run).mem.evidence, r))
    requires var s, date := After(c, seed, run).mem, TextDate(r.header.observedAt.t);
      RewardsFound(s.evidence, RankingsOn(s.derived, date), date, looks) && |looks| == |RankingsOn(s.derived, date)|
    ensures AllRewardsCurrent(c, After(c, seed, run + [Event(SendEvidence(r), env)]).mem)
      <==> RewardEvidenceHarmless(After(c, seed, run).mem, r, WithEvidence(After(c, seed, run).mem.evidence, r), looks)
  {
    hide After, Lawful, UtcRun, RankingsCurrent, AllRewardsCurrent, SummariesExact, RewardsDetermined, RewardsFound, RewardEvidenceHarmless, EvidenceError, Settled, LooksFound, Noted, Step, Sorting;
    hide SavedOk, ViewsOk, GroundedExcept, AllRanked;
    RunOk(c, seed, run);
    UtcRunsAgree(c, seed, run);
    var sys := After(c, seed, run);
    MemOk(c, seed, sys);
    MemTablesKeyed(c, seed, sys.mem);
    AfterOneMore(c, seed, run, Event(SendEvidence(r), env));
    EvidenceStepSettles(c, seed, sys, r, env);
    RewardEvidenceKeepsRewardsIff(c, sys.mem, r, env, looks);
  }
}
