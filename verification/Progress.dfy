/** Every request can be handled in every store, and what a step then leaves in memory. */
module Progress {
  import opened Records
  import opened Tables
  import opened RankingRules
  import opened AntiConcentration
  import opened PortalState
  import opened Pipeline
  import opened Portal
  import opened ProbeSummary
  import opened Qualification
  import opened Snapshots
  import opened Stepping
  import opened PortalRuns
  import opened Accounts
  import opened EvidenceAgreement

  // ---- The scans of a rebuild always have something to find ----

  lemma {:induction false} PlacementsExist(e: Evidence, records: seq<Base>, date: int) returns (looks: seq<Look>)
    ensures PlacementsFound(e, records, date, looks)
  {
    hide IsLatest;
    looks := [];
    if records != [] {
      var n := |records| - 1;
      looks := PlacementsExist(e, records[..n], date);
      var last := LatestExists(e.placements, records[n].nodeId, date);
      looks := looks + [last];
    }
  }

  lemma {:induction false} GroupsExist(e: Evidence, records: seq<Base>, date: int) returns (looks: seq<GroupLook>)
    ensures GroupsFound(e, records, date, looks)
  {
    hide IsLatest;
    looks := [];
    if records != [] {
      var n := |records| - 1;
      looks := GroupsExist(e, records[..n], date);
      var last := LatestExists(e.groups, records[n].nodeId, date);
      looks := looks + [last];
    }
  }

  lemma {:induction false} RewardsExist(e: Evidence, rankings: seq<Ranking>, date: int) returns (looks: seq<RewardLook>)
    ensures RewardsFound(e, rankings, date, looks)
  {
    hide IsLatest;
    looks := [];
    if rankings != [] {
      var n := |rankings| - 1;
      looks := RewardsExist(e, rankings[..n], date);
      var group := LatestExists(e.groups, rankings[n].nodeId, date);
      var domain := LatestExists(e.domains, rankings[n].nodeId, date);
      var plane := LatestExists(e.planes, rankings[n].nodeId, date);
      looks := looks + [RewardLook(group, domain, plane)];
    }
  }

  lemma RankLooksExist(e: Evidence, day: Day, registered: Registrations, date: int) returns (looks: RankLooks)
    ensures RankLooksFound(e, day, registered, date, looks)
  {
    hide PlacementsFound, GroupsFound, RewardsFound, Ranked, NewRankings, Listing;
    var counted := PlacementsExist(e, Listing(day), date);
    looks := RankLooks(counted, counted, [], []);
    var groups := GroupsExist(e, Ranked(day, registered, looks), date);
    LaterLooksIgnored(day, registered, looks, groups, []);
    looks := looks.(groups := groups);
    var rewards := RewardsExist(e, NewRankings(day, registered, looks), date);
    LaterLooksIgnored(day, registered, looks, groups, rewards);
    looks := looks.(rewards := rewards);
  }

  /** The order depends on the placements found only, the rows not on the reward evidence. */
  lemma LaterLooksIgnored(day: Day, registered: Registrations, looks: RankLooks, groups: seq<GroupLook>, rewards: seq<RewardLook>)
    ensures Ranked(day, registered, looks.(groups := groups)) == Ranked(day, registered, looks)
    ensures Ranked(day, registered, looks.(rewards := rewards)) == Ranked(day, registered, looks)
    ensures NewRankings(day, registered, looks.(rewards := rewards)) == NewRankings(day, registered, looks)
  {
  }

  lemma LooksExist(c: Config, s: State, b: Rebuild, now: nat, io: nat -> Io, saves: bool) returns (env: Env)
    ensures env.now == now && env.io == io && env.saves == saves && LooksFound(c, s, b, env)
  {
    hide IsLatest, RankLooksFound, RewardsFound, SummaryOf, Regraded;
    match b
    case Nothing =>
      env := Env(now, NO_LOOKS, io, saves);
    case Artifacts(nodeId, date) =>
      var check := LatestExists(s.checks, nodeId, date);
      var votingKey := LatestExists(s.evidence.votingKeys, nodeId, date);
      var first := ArtifactLooks(check, votingKey, NO_LOOKS.ranks);
      var ranks := RankLooksExist(s.evidence, OnDate(GradeStep(c, s, nodeId, date, now, first).bases, date), RegistrationsOf(s.nodes), date);
      GradeIgnoresRanks(c, s, nodeId, date, now, first, ranks);
      env := Env(now, first.(ranks := ranks), io, saves);
    case WholeRanking(date) =>
      var ranks := RankLooksExist(s.evidence, OnDate(s.derived.bases, date), RegistrationsOf(s.nodes), date);
      env := Env(now, NO_LOOKS.(ranks := ranks), io, saves);
    case OnlyRewards(date) =>
      var rewards := RewardsExist(s.evidence, RankingsOn(s.derived, date), date);
      env := Env(now, NO_LOOKS.(ranks := NO_LOOKS.ranks.(rewards := rewards)), io, saves);
  }

  lemma GradeIgnoresRanks(c: Config, s: State, nodeId: string, date: int, now: int, looks: ArtifactLooks, ranks: RankLooks)
    ensures GradeStep(c, s, nodeId, date, now, looks.(ranks := ranks)) == GradeStep(c, s, nodeId, date, now, looks)
  {
    hide SummaryOf, DecisionOf, Regraded, CountBeats;
    assert ReadingsOf(s, nodeId, date, now, looks.(ranks := ranks)) == ReadingsOf(s, nodeId, date, now, looks);
  }

  /** Whatever a store holds, whatever the clock and the outcome of notifications and saves: every request
      can be handled. */
  lemma EveryRequestPossible(c: Config, sys: Sys, q: Request, now: nat, io: nat -> Io, saves: bool) returns (env: Env)
    ensures env.now == now && env.io == io && env.saves == saves && Possible(c, sys, Event(q, env))
  {
    hide LooksFound, RequestError, Noted, RebuildOf;
    if RequestError(c, sys.mem, q, now).None? {
      env := LooksExist(c, Noted(c, sys.mem, q, now), RebuildOf(q), now, io, saves);
    } else {
      env := Env(now, NO_LOOKS, io, saves);
    }
  }

  // ---- What a step leaves in memory ----

  /** The same but for alerts and telemetry. */
  ghost predicate SameButAlerts(t: State, s: State) {
    t == s.(telemetry := t.telemetry, latestTelemetry := t.latestTelemetry,
      alertStates := t.alertStates, deliveries := t.deliveries, operational := t.operational)
  }

  ghost function FromState(s: State): Invariant {
    (sys: Sys) => SameButAlerts(sys.mem, s)
  }

  lemma FromStateClosed(c: Config, nodes: set<string>, s: State)
    ensures Closed(c, nodes, FromState(s))
  {
    hide SnapshotOf, RecipientOf, CoolingDown;
  }

  /** An accepted request other than a restart leaves the settled store, but for alerts and telemetry. */
  lemma StepLeavesSettled(c: Config, seed: map<string, Node>, sys: Sys, e: Event)
    requires SeedOk(seed) && SysOk(c, seed, sys) && Possible(c, sys, e)
    requires RequestError(c, sys.mem, e.q, e.env.now).None? && !e.q.Restart?
    ensures SameButAlerts(Step(c, seed, sys, e.q, e.env).mem, Settled(c, sys.mem, e.q, e.env))
  {
    hide SysOk, Settled, RequestError, Noted, LooksFound, NodesOk, Handle, Closed, Possible;
    var settled := Settled(c, sys.mem, e.q, e.env);
    SettledContinues(c, seed, sys, e);
    FromStateClosed(c, seed.Keys, settled);
    SettledToHandled(c, seed, FromState(settled), sys, e.q, e.env);
  }

  /** One more accepted request, at any time, saved or not. */
  lemma Extended(c: Config, seed: map<string, Node>, run: seq<Event>, q: Request, now: nat) returns (e: Event)
    requires SeedOk(seed) && Lawful(c, seed, run)
    requires RequestError(c, After(c, seed, run).mem, q, now).None? && !q.Restart?
    ensures e.q == q && e.env.now == now && Lawful(c, seed, run + [e])
    ensures Possible(c, After(c, seed, run), e)
    ensures SameButAlerts(After(c, seed, run + [e]).mem, Settled(c, After(c, seed, run).mem, q, e.env))
  {
    hide Step, Possible, Settled, RequestError, SysOk, SeedOk, SameButAlerts;
    var env := EveryRequestPossible(c, After(c, seed, run), q, now, (i: nat) => Io(true, true), true);
    e := Event(q, env);
    assert (run + [e])[..|run|] == run;
    RunOk(c, seed, run);
    StepLeavesSettled(c, seed, After(c, seed, run), e);
  }
}
