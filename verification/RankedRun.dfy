/** One whole run, from the first start to a ranked node: a challenge, an enrollment, and three days later
    two probes from two regions, a passed check, a voting key and two heartbeats. */
module RankedRun {
  import opened Records
  import opened Texts
  import opened Counting
  import opened Tables
  import opened ProbeSummary
  import opened Qualification
  import opened RankingRules
  import opened PortalState
  import opened Pipeline
  import opened Portal
  import opened Views
  import opened Gradings
  import opened Reachable
  import opened PortalRuns
  import opened ReachableRows
  import opened UtcRuns
  import opened Accounts
  import opened Progress

  const SOLE_NODE := Node("n", "", "", true, "", "", 0, None, 0, None, "")
  const SOLE_SEED: map<string, Node> := map["n" := SOLE_NODE]

  /** 72 hours after the enrollment, the first second of day 3. */
  const START := 3 * DAY
  const MOMENT := Stamp(START, Zulu)
  const NOW: nat := START * NANOS

  /** What the run needs of the configuration. */
  predicate PlainConfig(c: Config) {
    c.clockSkew >= 0 && c.challengeTtl >= NANOS && c.policy.finalizedLagMax >= 0 && c.policy.chainLagMax >= 0
  }

  function EnrollOnce(): EnrollRequest {
    EnrollRequest("n", ChallengeId("n", 0), "key", "signature", Some("f"), true)
  }

  function GoodProbe(id: string, region: string, at: Stamp): ProbeRequest {
    ProbeRequest("1", id, "n", region, At(at), "endpoint", Some(true), Is(60), Is(0), Is(0), Is(1), Is(1), Absent)
  }

  function CheckOf(c: Config, id: string, at: Stamp, passed: bool): CheckRequest {
    CheckRequest("n", "f", true, c.policy.version, "1", c.policy.cpuProfileId, c.policy.diskProfileId, id, "recheck", At(at),
      SubChecks(Some(passed), Some(true), Some(true), Some(true), Some(true), Some(true)), Some(passed))
  }

  function KeyOf(ref: string, at: Stamp, present: bool): EvidenceRequest {
    VotingKeyRequest(Header("n", ref, At(at), "operator"), Is(1), Some(present), Some(true))
  }

  function BeatOf(sequence: int): HeartbeatRequest {
    HeartbeatRequest("n", "f", At(MOMENT), sequence, 1, true)
  }

  // ---- What the store holds ----

  /** Everything that is not derived, an alert or telemetry. */
  ghost predicate SameEvents(t: State, s: State) {
    && t.nodes == s.nodes && t.challenges == s.challenges && t.checks == s.checks && t.heartbeats == s.heartbeats
    && t.probes == s.probes && t.evidence == s.evidence
  }

  ghost predicate Holds(s: State, node: Node, probes: Probes, checks: map<string, Observation<Check>>, keys: map<string, Observation<VotingKey>>, beats: seq<Heartbeat>) {
    && s.nodes == map["n" := node] && s.probes == probes && s.checks == checks
    && s.evidence == NO_EVIDENCE.(votingKeys := keys) && s.heartbeats == beats
  }

  function EnrolledNode(c: Config, sequence: int): Node {
    Node("n", "", "", true, "f", "key", 1, Some(0), sequence, if sequence > 0 then Some(MOMENT) else None, c.policy.version)
  }

  function StoredProbe(id: string, region: string): Observation<Probe> {
    Observation(id, "n", MOMENT, Probe(region, true, Some(0), Some(0), Some(1), Some(1)))
  }

  const PROBE1: Probes := map["p1" := StoredProbe("p1", "r1")]
  const PROBES: Probes := map["p1" := StoredProbe("p1", "r1"), "p2" := StoredProbe("p2", "r2")]
  const CHECKS: map<string, Observation<Check>> := map["c1" := Observation("c1", "n", MOMENT, Check(true))]
  const KEYS: map<string, Observation<VotingKey>> := map["v1" := Observation("v1", "n", MOMENT, VotingKey(1, true, true, "operator"))]
  const BEATS: seq<Heartbeat> := [Heartbeat("n", MOMENT, 1), Heartbeat("n", MOMENT, 2)]

  // ---- One step ----

  lemma Advance(c: Config, run: seq<Event>, q: Request, now: nat, s: State) returns (longer: seq<Event>, t: State)
    requires SeedOk(SOLE_SEED) && Lawful(c, SOLE_SEED, run) && UtcRun(run) && s == After(c, SOLE_SEED, run).mem
    requires UtcRequest(q) && !q.Restart? && RequestError(c, s, q, now).None?
    ensures Lawful(c, SOLE_SEED, longer) && UtcRun(longer) && t == After(c, SOLE_SEED, longer).mem
    ensures SameEvents(t, Noted(c, s, q, now)) && Decided(t, RebuildOf(q))
  {
    hide Step, Possible, Settled, RequestError, SeedOk, After, Lawful, Noted, UtcRequest, RebuildOf;
    var e := Extended(c, SOLE_SEED, run, q, now);
    longer := run + [e];
    t := After(c, SOLE_SEED, longer).mem;
    SettledEvents(c, s, q, e.env);
  }

  lemma SettledEvents(c: Config, s: State, q: Request, env: Env)
    requires RequestError(c, s, q, env.now).None?
    ensures SameEvents(Settled(c, s, q, env), Noted(c, s, q, env.now)) && Decided(Settled(c, s, q, env), RebuildOf(q))
  {
    hide RequestError, Noted, RebuildOf, Rebuilt;
    OnlyDerivedChanges(c, Noted(c, s, q, env.now), RebuildOf(q), env);
    RebuildDecides(c, Noted(c, s, q, env.now), RebuildOf(q), env);
  }

  /** A re-graded node has a decision. */
  ghost predicate Decided(s: State, b: Rebuild) {
    b.Artifacts? ==> (b.nodeId, b.date) in s.derived.decisions
  }

  lemma RebuildDecides(c: Config, s: State, b: Rebuild, env: Env)
    ensures Decided(Rebuilt(c, s, b, env), b)
  {
    hide SummaryOf, DecisionOf, RankingStep, ReadingsOf;
    if b.Artifacts? {
      RankingStepKeepsRest(c.nominalPool, GradeStep(c, s, b.nodeId, b.date, env.now, env.looks), RegistrationsOf(s.nodes), b.date, env.looks.ranks);
    }
  }

  lemma InTime(c: Config)
    requires PlainConfig(c)
    ensures TimestampOk(c, At(MOMENT), NOW)
  {
  }

  // ---- Enrollment ----

  lemma SoleSeedOk()
    ensures SeedOk(SOLE_SEED)
  {
  }

  lemma EnrolledRun(c: Config) returns (run: seq<Event>, s: State)
    requires PlainConfig(c)
    ensures Lawful(c, SOLE_SEED, run) && UtcRun(run) && s == After(c, SOLE_SEED, run).mem
    ensures Holds(s, EnrolledNode(c, 0), map[], map[], map[], [])
  {
    hide Step, Possible, After, Lawful;
    SoleSeedOk();
    StartHolds(c);
    run := [];
    s := Fresh(SOLE_SEED);
    run, s := Advance(c, run, Issue("n"), 0, s);
    EnrollAccepted(c, s);
    run, s := Advance(c, run, Enroll(EnrollOnce()), 0, s);
  }

  lemma StartHolds(c: Config)
    ensures Lawful(c, SOLE_SEED, []) && After(c, SOLE_SEED, []).mem == Fresh(SOLE_SEED)
    ensures Holds(Fresh(SOLE_SEED), SOLE_NODE, map[], map[], map[], [])
    ensures IssueError(Fresh(SOLE_SEED), "n").None? && RequestError(c, Fresh(SOLE_SEED), Issue("n"), 0).None?
  {
  }

  lemma EnrollAccepted(c: Config, s: State)
    requires PlainConfig(c) && SameEvents(s, WithChallenge(c, Fresh(SOLE_SEED), "n", 0))
    ensures RequestError(c, s, Enroll(EnrollOnce()), 0).None?
    ensures Holds(WithEnrollment(c, s, EnrollOnce(), 0), EnrolledNode(c, 0), map[], map[], map[], [])
    ensures Noted(c, s, Enroll(EnrollOnce()), 0) == WithEnrollment(c, s, EnrollOnce(), 0)
  {
    hide ChallengeId;
    assert "signature" != "" && "key" != "" && "n" != "";
    ChallengeNamed();
    OneSecond(c);
    var id := ChallengeId("n", 0);
    assert id in s.challenges && s.challenges[id] == NewChallenge(c, "n", 0);
    assert EnrollError(s, EnrollOnce(), 0).None?;
  }

  lemma ChallengeNamed()
    ensures ChallengeId("n", 0) != ""
  {
  }

  lemma OneSecond(c: Config)
    requires PlainConfig(c)
    ensures Seconds(0 + c.challengeTtl) >= 1 && Seconds(0) == 0
  {
  }

  // ---- Three days later ----

  lemma ProbeAccepted(c: Config, s: State, id: string, region: string, node: Node, probes: Probes)
    requires PlainConfig(c) && Holds(s, node, probes, map[], map[], [])
    requires id != "" && region != "" && id !in probes
    ensures var q := SendProbe(GoodProbe(id, region, MOMENT));
      RequestError(c, s, q, NOW).None? && Holds(Noted(c, s, q, NOW), node, probes[id := StoredProbe(id, region)], map[], map[], [])
  {
    hide TimestampOk;
    InTime(c);
    assert "1" != "" && "endpoint" != "";
  }

  lemma ProbedRun(c: Config) returns (run: seq<Event>, s: State)
    requires PlainConfig(c)
    ensures Lawful(c, SOLE_SEED, run) && UtcRun(run) && s == After(c, SOLE_SEED, run).mem
    ensures Holds(s, EnrolledNode(c, 0), PROBES, map[], map[], [])
  {
    hide Step, Possible, After, Lawful, RequestError, Noted;
    SoleSeedOk();
    run, s := EnrolledRun(c);
    ProbeAccepted(c, s, "p1", "r1", EnrolledNode(c, 0), map[]);
    run, s := Advance(c, run, SendProbe(GoodProbe("p1", "r1", MOMENT)), NOW, s);
    assert "p1"[1] != "p2"[1];
    ProbeAccepted(c, s, "p2", "r2", EnrolledNode(c, 0), PROBE1);
    run, s := Advance(c, run, SendProbe(GoodProbe("p2", "r2", MOMENT)), NOW, s);
  }

  lemma CheckAccepted(c: Config, s: State)
    requires PlainConfig(c) && Holds(s, EnrolledNode(c, 0), PROBES, map[], map[], [])
    ensures var q := SendCheck(CheckOf(c, "c1", MOMENT, true));
      RequestError(c, s, q, NOW).None? && Holds(Noted(c, s, q, NOW), EnrolledNode(c, 0), PROBES, CHECKS, map[], [])
  {
    hide TimestampOk;
    InTime(c);
  }

  lemma KeyAccepted(c: Config, s: State)
    requires PlainConfig(c) && Holds(s, EnrolledNode(c, 0), PROBES, CHECKS, map[], [])
    ensures var q := SendEvidence(KeyOf("v1", MOMENT, true));
      RequestError(c, s, q, NOW).None? && Holds(Noted(c, s, q, NOW), EnrolledNode(c, 0), PROBES, CHECKS, KEYS, [])
  {
    hide TimestampOk;
    InTime(c);
    assert "operator" != "";
  }

  lemma BeatAccepted(c: Config, s: State, sequence: int)
    requires PlainConfig(c) && 1 <= sequence <= 2 && Holds(s, EnrolledNode(c, sequence - 1), PROBES, CHECKS, KEYS, BEATS[..sequence - 1])
    ensures var q := Beat(BeatOf(sequence));
      RequestError(c, s, q, NOW).None? && Holds(Noted(c, s, q, NOW), EnrolledNode(c, sequence), PROBES, CHECKS, KEYS, BEATS[..sequence])
  {
    hide TimestampOk;
    InTime(c);
    assert "key" != "";
  }

  /** Everything but the last heartbeat. */
  lemma NearlyRankedRun(c: Config) returns (run: seq<Event>, s: State)
    requires PlainConfig(c)
    ensures Lawful(c, SOLE_SEED, run) && UtcRun(run) && s == After(c, SOLE_SEED, run).mem
    ensures Holds(s, EnrolledNode(c, 1), PROBES, CHECKS, KEYS, BEATS[..1]) && ("n", 3) in s.derived.decisions
  {
    hide Step, Possible, After, Lawful, RequestError, Noted;
    SoleSeedOk();
    run, s := ProbedRun(c);
    CheckAccepted(c, s);
    run, s := Advance(c, run, SendCheck(CheckOf(c, "c1", MOMENT, true)), NOW, s);
    KeyAccepted(c, s);
    run, s := Advance(c, run, SendEvidence(KeyOf("v1", MOMENT, true)), NOW, s);
    assert BEATS[..0] == [];
    BeatAccepted(c, s, 1);
    run, s := Advance(c, run, Beat(BeatOf(1)), NOW, s);
  }

  // ---- The ranked node ----

  lemma BothProbesShow(c: Config, t: Trait)
    requires PlainConfig(c)
    requires t in {Any, Up, FinalizedMeasured, FinalizedWithin(c.policy.finalizedLagMax), ChainMeasured, ChainWithin(c.policy.chainLagMax)}
    ensures Having(PROBES, {"p1", "p2"}, t) == {"p1", "p2"}
  {
    assert Shows(t, Probe("r1", true, Some(0), Some(0), Some(1), Some(1)));
    assert Shows(t, Probe("r2", true, Some(0), Some(0), Some(1), Some(1)));
  }

  lemma ProbesPass(c: Config)
    requires PlainConfig(c)
    ensures SummaryOf(c.policy, PROBES, "n", 3).evidencePassed
  {
    hide Having, RegionsOf, PlainConfig;
    var ids := {"p1", "p2"};
    assert "p1"[1] != "p2"[1] && "r1"[1] != "r2"[1];
    assert OfDay(PROBES, "n", 3) == ids;
    BothProbesShow(c, Any);
    BothProbesShow(c, Up);
    BothProbesShow(c, FinalizedMeasured);
    BothProbesShow(c, FinalizedWithin(c.policy.finalizedLagMax));
    BothProbesShow(c, ChainMeasured);
    BothProbesShow(c, ChainWithin(c.policy.chainLagMax));
    TwoRegions();
  }

  lemma TwoRegions()
    ensures RegionsOf(PROBES, {"p1", "p2"}) == {"r1", "r2"}
  {
    assert PROBES["p1"].what.regionId == "r1" && PROBES["p2"].what.regionId == "r2";
  }

  lemma BeatsHealthy()
    ensures CountBeats(BEATS, "n", NOW, HEALTHY_WINDOW) == 2
  {
    var recent := RecentBeat("n", NOW, HEALTHY_WINDOW);
    assert BEATS == [BEATS[0]] + [BEATS[1]];
    CountAppend([BEATS[0]], [BEATS[1]], recent);
  }

  lemma SoleQualified(c: Config, s: State, looks: ArtifactLooks)
    requires PlainConfig(c) && Holds(s, EnrolledNode(c, 2), PROBES, CHECKS, KEYS, BEATS)
    requires IsLatest(CHECKS, "n", 3, looks.check) && IsLatest(KEYS, "n", 3, looks.votingKey)
    ensures var d := DecisionOf(SummaryOf(c.policy, s.probes, "n", 3), ReadingsOf(s, "n", 3, NOW, looks));
      d.qualified && d.hardwarePassed && d.votingKeyPassed
  {
    hide SummaryOf, DecisionOf, CountBeats;
    ProbesPass(c);
    BeatsHealthy();
    assert Candidate(CHECKS, "n", 3, "c1") && Candidate(KEYS, "n", 3, "v1");
    assert Anchor(3, NOW) == NOW;
    GatesOfReadings(SummaryOf(c.policy, s.probes, "n", 3), ReadingsOf(s, "n", 3, NOW, looks));
  }

  /** Without group evidence every ranked node is its own group. */
  lemma UngroupedRanking(pool: real, e: Evidence, v: Derived, registered: Registrations, date: int, looks: RankLooks, k: nat)
    requires KeyedBy(v.bases, BaseKey) && KeyedBy(v.rankings, RankingKey) && e.groups == map[]
    requires RankLooksFound(e, OnDate(v.bases, date), registered, date, looks)
    requires k < |RankingsOn(RankingStep(pool, v, registered, date, looks), date)|
    ensures var row := RankingsOn(RankingStep(pool, v, registered, date, looks), date)[k]; row.operatorGroupId == row.nodeId
  {
    hide RankingStep, Sorting, RankLooksFound, KeyedBy;
    RerankedGroups(pool, e, v, registered, date, looks, k);
  }

  /** What the whole run ends with. */
  ghost predicate RankedAlone(c: Config, s: State) {
    && Holds(s, EnrolledNode(c, 2), PROBES, CHECKS, KEYS, BEATS)
    && ("n", 3) in s.derived.decisions && ("n", 3) in s.derived.summaries && ("n", 3) in s.derived.bases
    && s.derived.decisions[("n", 3)].qualified
    && s.derived.decisions[("n", 3)].hardwarePassed && s.derived.decisions[("n", 3)].votingKeyPassed
    && forall k :: 0 <= k < |RankingsOn(s.derived, 3)| ==>
         RankingsOn(s.derived, 3)[k].operatorGroupId == RankingsOn(s.derived, 3)[k].nodeId
  }

  lemma LastBeatRanks(c: Config, s: State, env: Env)
    requires PlainConfig(c) && Holds(s, EnrolledNode(c, 2), PROBES, CHECKS, KEYS, BEATS) && env.now == NOW
    requires LooksFound(c, s, Artifacts("n", 3), env)
    requires KeyedBy(GradeStep(c, s, "n", 3, NOW, env.looks).bases, BaseKey) && KeyedBy(s.derived.rankings, RankingKey)
    ensures RankedAlone(c, Rebuilt(c, s, Artifacts("n", 3), env))
  {
    hide SummaryOf, DecisionOf, ReadingsOf, RankingStep, RankLooksFound, IsLatest, KeyedBy, Sorting, PlainConfig;
    SoleQualified(c, s, env.looks);
    var v := GradeStep(c, s, "n", 3, NOW, env.looks);
    var t := Rebuilt(c, s, Artifacts("n", 3), env);
    RankingStepKeepsRest(c.nominalPool, v, RegistrationsOf(s.nodes), 3, env.looks.ranks);
    forall k | 0 <= k < |RankingsOn(t.derived, 3)|
      ensures RankingsOn(t.derived, 3)[k].operatorGroupId == RankingsOn(t.derived, 3)[k].nodeId
    {
      UngroupedRanking(c.nominalPool, s.evidence, v, RegistrationsOf(s.nodes), 3, env.looks.ranks, k);
    }
  }

  /** The whole run: `n` is ranked on day 3. */
  lemma NodeGetsRanked(c: Config) returns (run: seq<Event>, s: State)
    requires PlainConfig(c)
    ensures SeedOk(SOLE_SEED) && Lawful(c, SOLE_SEED, run) && UtcRun(run) && s == After(c, SOLE_SEED, run).mem
    ensures RankedAlone(c, s)
  {
    hide Step, Possible, After, Lawful, RequestError, Noted, Settled, Holds, RankedAlone, SameButAlerts, PlainConfig, SysOk, StateOk, UtcRequest;
    SoleSeedOk();
    var before, t := NearlyRankedRun(c);
    var e := LastBeat(c, before, t);
    run := before + [e];
    s := After(c, SOLE_SEED, run).mem;
    assert UtcRequest(e.q) by { BeatIsUtc(e.q); }
  }

  lemma BeatIsUtc(q: Request)
    requires q.Beat?
    ensures UtcRequest(q)
  {
  }

  lemma LastBeat(c: Config, before: seq<Event>, t: State) returns (e: Event)
    requires PlainConfig(c) && SeedOk(SOLE_SEED) && Lawful(c, SOLE_SEED, before) && t == After(c, SOLE_SEED, before).mem
    requires Holds(t, EnrolledNode(c, 1), PROBES, CHECKS, KEYS, BEATS[..1])
    ensures e.q == Beat(BeatOf(2)) && Lawful(c, SOLE_SEED, before + [e]) && RankedAlone(c, After(c, SOLE_SEED, before + [e]).mem)
  {
    hide Step, Possible, After, Lawful, RequestError, Noted, Settled, Holds, RankedAlone, SameButAlerts, PlainConfig, SysOk, StateOk;
    BeatAccepted(c, t, 2);
    RunOk(c, SOLE_SEED, before);
    MemOk(c, SOLE_SEED, After(c, SOLE_SEED, before));
    e := Extended(c, SOLE_SEED, before, Beat(BeatOf(2)), NOW);
    FoundIfPossible(c, After(c, SOLE_SEED, before), e);
    SettledRanks(c, t, e.env);
    RankedAloneKept(c, After(c, SOLE_SEED, before + [e]).mem, Settled(c, t, e.q, e.env));
  }

  lemma FoundIfPossible(c: Config, sys: Sys, e: Event)
    requires Possible(c, sys, e) && RequestError(c, sys.mem, e.q, e.env.now).None?
    ensures LooksFound(c, Noted(c, sys.mem, e.q, e.env.now), RebuildOf(e.q), e.env)
  {
  }

  lemma SettledRanks(c: Config, t: State, env: Env)
    requires PlainConfig(c) && StateOk(c, SOLE_SEED, t) && env.now == NOW
    requires Holds(t, EnrolledNode(c, 1), PROBES, CHECKS, KEYS, BEATS[..1])
    requires RequestError(c, t, Beat(BeatOf(2)), NOW).None?
    requires LooksFound(c, Noted(c, t, Beat(BeatOf(2)), NOW), RebuildOf(Beat(BeatOf(2))), env)
    ensures RankedAlone(c, Settled(c, t, Beat(BeatOf(2)), env))
  {
    hide LooksFound, RequestError, Holds, RankedAlone, StateOk, PlainConfig, KeyedBy, Rebuilt, SummaryOf, DecisionOf, ReadingsOf;
    assert BEATS[..2] == BEATS;
    BeatAccepted(c, t, 2);
    MemTablesKeyed(c, SOLE_SEED, t);
    var noted := Noted(c, t, Beat(BeatOf(2)), NOW);
    assert UtcDate(MOMENT) == 3;
    var summary := SummaryOf(c.policy, noted.probes, "n", 3);
    SummaryNamesItsDay(c.policy, noted.probes, "n", 3);
    RegradedTables(noted.derived, ("n", 3), summary, DecisionOf(summary, ReadingsOf(noted, "n", 3, NOW, env.looks)));
    LastBeatRanks(c, noted, env);
  }

  lemma RankedAloneKept(c: Config, s: State, t: State)
    requires RankedAlone(c, t) && SameButAlerts(s, t)
    ensures RankedAlone(c, s)
  {
    hide Sorting;
  }
}
