/** Concrete inputs at which promises that need a condition fail without it. */
module Counterexamples {
  import opened Texts
  import opened Records
  import opened Counting
  import opened Tables
  import opened RankingRules
  import opened AntiConcentration
  import opened PortalState
  import opened Pipeline
  import opened Portal
  import opened Gradings
  import opened Qualification
  import opened Reachable
  import opened BeatGates
  import opened PortalRuns
  import opened Guarantees
  import opened Accounts
  import opened EvidenceAgreement
  import opened Progress
  import opened UtcRuns
  import opened StaleRuns
  import opened RankedRun

  // ---- Two infrastructures counted as one ----

  function PlacementOn(nodeId: string, ref: string, at: Stamp, country: string, provider: string, infrastructure: string): EvidenceRequest {
    PlacementRequest(Header(nodeId, ref, At(at), "operator"), country, provider, infrastructure, Is(7))
  }

  lemma PlainText(a: char, b: char)
    requires !IsSpace(a) && !IsSpace(b)
    ensures Trim([a, b]) == [a, b] && !Blank([a, b])
    ensures Trim([a, '|', b]) == [a, '|', b] && !Blank([a, '|', b])
  {
    assert TrimLeft([a, b]) == [a, b] && TrimLeft([a, '|', b]) == [a, '|', b];
  }

  lemma PlainChar(a: char)
    requires !IsSpace(a)
    ensures Trim([a]) == [a] && !Blank([a])
  {
    assert TrimLeft([a]) == [a];
  }

  lemma PlacementAccepted(c: Config, s: State, nodeId: string, ref: string, at: Stamp, country: string, provider: string, infrastructure: string, now: nat)
    requires nodeId in s.nodes && nodeId != "" && ref != "" && ref !in s.evidence.placements
    requires TimestampOk(c, At(at), now) && !Blank(country) && !Blank(provider)
    ensures EvidenceError(c, s, PlacementOn(nodeId, ref, at, country, provider, infrastructure), now).None?
  {
    hide Blank;
    var r := PlacementOn(nodeId, ref, at, country, provider, infrastructure);
    assert FieldsError(r).None? && NumbersError(r).None?;
  }

  /** Provider "a|b" with infrastructure "c" and provider "a" with infrastructure "b|c" are both accepted,
      are different infrastructures in different countries, and cost each other the ten points. */
  lemma BarCostsPoints(c: Config, s: State, n1: string, n2: string, at: Stamp, now: nat)
    requires n1 in s.nodes && n2 in s.nodes && n1 != n2 && n1 != "" && n2 != ""
    requires s.evidence.placements == map[] && TimestampOk(c, At(at), now)
    ensures var r1, r2 := PlacementOn(n1, "e1", at, "DE", "a|b", "c"), PlacementOn(n2, "e2", at, "FR", "a", "b|c");
      && EvidenceError(c, s, r1, now).None?
      && var t := s.(evidence := WithEvidence(s.evidence, r1));
      && EvidenceError(c, t, r2, now).None?
      && var stored := WithEvidence(t.evidence, r2).placements;
      && "e1" in stored && "e2" in stored
      && var looks := [Some(stored["e1"]), Some(stored["e2"])];
      && (forall i :: 0 <= i < 2 ==> PlacementScore(looks, looks[i]) == 20.0 && PairwiseScore(looks, i) == 30.0)
  {
    hide Trim, Upper, Blank, PlacementScore, PairwiseScore;
    BarTexts();
    var r1, r2 := PlacementOn(n1, "e1", at, "DE", "a|b", "c"), PlacementOn(n2, "e2", at, "FR", "a", "b|c");
    PlacementAccepted(c, s, n1, "e1", at, "DE", "a|b", "c", now);
    var t := s.(evidence := WithEvidence(s.evidence, r1));
    assert "e1"[1] != "e2"[1];
    PlacementAccepted(c, t, n2, "e2", at, "FR", "a", "b|c", now);
    var stored := WithEvidence(t.evidence, r2).placements;
    assert stored["e1"].what == Placement(Upper("DE"), 7, "a|b", "c", "operator");
    assert stored["e2"].what == Placement(Upper("FR"), 7, "a", "b|c", "operator");
    BarScores(stored["e1"], stored["e2"]);
  }

  lemma BarTexts()
    ensures Trim("DE") == "DE" && !Blank("DE") && Trim("FR") == "FR" && !Blank("FR")
    ensures Trim("a|b") == "a|b" && !Blank("a|b") && Trim("b|c") == "b|c"
    ensures Trim("a") == "a" && !Blank("a") && Trim("c") == "c"
    ensures Upper("DE") != "" && Upper("FR") != "" && Upper("DE") != Upper("FR")
  {
    PlainText('D', 'E');
    PlainText('F', 'R');
    PlainText('a', 'b');
    PlainText('b', 'c');
    PlainChar('a');
    PlainChar('c');
    assert Upper("DE")[0] == 'D' && Upper("FR")[0] == 'F';
  }

  lemma BarScores(x: Observation<Placement>, y: Observation<Placement>)
    requires x.what == Placement(Upper("DE"), 7, "a|b", "c", "operator")
    requires y.what == Placement(Upper("FR"), 7, "a", "b|c", "operator")
    ensures var looks := [Some(x), Some(y)];
      forall i :: 0 <= i < 2 ==> PlacementScore(looks, looks[i]) == 20.0 && PairwiseScore(looks, i) == 30.0
  {
    hide Trim, Upper, Blank;
    BarTexts();
    var looks := [Some(x), Some(y)];
    assert "a|b" + "|" + "c" == "a" + "|" + "b|c";
    assert |"a|b"| != |"a"|;
    forall i | 0 <= i < 2
      ensures PlacementScore(looks, looks[i]) == 20.0 && PairwiseScore(looks, i) == 30.0
    {
      assert CountedAsOne(looks[1 - i].value.what, looks[i].value.what);
      assert InfraCountedTwice(looks, i) && !InfraShared(looks, i) && !CountryShared(looks, i);
      PointsOfBoth(looks, i);
    }
  }

  lemma PointsOfBoth(looks: seq<Look>, i: nat)
    requires i < |looks| && looks[i].Some? && looks[i].value.what.countryCode != "" && NamesInfrastructure(looks[i].value.what)
    requires InfraCountedTwice(looks, i) && !InfraShared(looks, i) && !CountryShared(looks, i)
    ensures PlacementScore(looks, looks[i]) == 20.0 && PairwiseScore(looks, i) == 30.0
  {
    hide Count, CountryShared, InfraShared, InfraCountedTwice, InCountry, OnInfra, InfraOf, Blank;
    CountryAlone(looks, i);
    InfraAlone(looks, i);
  }

  // ---- Stored rows made stale by a time text of another date, after a run in UTC ----

  /** An hour before the end of day 3 two hours behind UTC: the moment lies in day 4. */
  const LATE := Stamp(3 * DAY + 23 * 3600, Minus(120))
  const LATE_NOW: nat := (4 * DAY + 3600) * NANOS

  lemma LateText(c: Config)
    requires PlainConfig(c)
    ensures TextDate(LATE) == 3 && UtcDate(LATE) == 4 && !Aligned(LATE) && TimestampOk(c, At(LATE), LATE_NOW)
    ensures TextDate(MOMENT) == 3 && StampLess(MOMENT, LATE) && LATE != MOMENT
  {
  }

  /** A request that the portal accepts after a run in UTC. */
  ghost predicate AcceptedAfter(c: Config, run: seq<Event>, e: Event) {
    && SeedOk(SOLE_SEED) && Lawful(c, SOLE_SEED, run) && UtcRun(run) && Possible(c, After(c, SOLE_SEED, run), e)
    && RequestError(c, After(c, SOLE_SEED, run).mem, e.q, e.env.now).None? && !e.q.Restart?
  }

  lemma Accepts(c: Config, run: seq<Event>, q: Request) returns (e: Event)
    requires SeedOk(SOLE_SEED) && Lawful(c, SOLE_SEED, run) && UtcRun(run) && !q.Restart?
    requires RequestError(c, After(c, SOLE_SEED, run).mem, q, LATE_NOW).None?
    ensures e.q == q && e.env.now == LATE_NOW && AcceptedAfter(c, run, e)
  {
    hide Possible, RequestError, After, Lawful, UtcRun;
    var env := EveryRequestPossible(c, After(c, SOLE_SEED, run), q, LATE_NOW, (i: nat) => Io(true, true), true);
    e := Event(q, env);
  }

  lemma LateProbeAccepted(c: Config, s: State)
    requires PlainConfig(c) && RankedAlone(c, s)
    ensures ProbeError(c, s, GoodProbe("p3", "r1", LATE), LATE_NOW).None? && ("n", 3) in s.derived.summaries
  {
    hide TimestampOk, Sorting;
    LateText(c);
    assert "p3"[1] != "p1"[1] && "p3"[1] != "p2"[1] && "r1" != "" && "1" != "" && "endpoint" != "";
  }

  /** A probe after which the summary of day 3 is not the recount of the stored probes. */
  lemma ProbeLeavesSummaryStale(c: Config) returns (run: seq<Event>, e: Event)
    requires PlainConfig(c)
    ensures AcceptedAfter(c, run, e) && e.q == SendProbe(GoodProbe("p3", "r1", LATE))
    ensures SummariesExact(c, After(c, SOLE_SEED, run).mem) && !SummariesExact(c, After(c, SOLE_SEED, run + [e]).mem)
  {
    hide RankedAlone, After, Lawful, UtcRun, Possible, SummariesExact, ProbeError, PlainConfig;
    var s: State;
    run, s := NodeGetsRanked(c);
    var r := GoodProbe("p3", "r1", LATE);
    LateText(c);
    LateProbeAccepted(c, s);
    e := Accepts(c, run, SendProbe(r));
    UtcRunsAgree(c, SOLE_SEED, run);
    ReachableProbeKeepsSummariesIff(c, SOLE_SEED, run, r, e.env, s);
  }

  lemma LateCheckHarms(c: Config, s: State)
    requires PlainConfig(c) && RankedAlone(c, s)
    ensures var r := CheckOf(c, "c2", LATE, false);
      && CheckError(c, s, r, LATE_NOW).None?
      && Determined(s.checks) && Determined(s.evidence.votingKeys) && Determined(WithCheck(s, r).checks)
      && !CheckHarmless(s, WithCheck(s, r).checks[r.eventId])
  {
    hide TimestampOk, Sorting, StampLess;
    LateText(c);
    assert "c2"[1] != "c1"[1];
  }

  /** A failed check after which the hardware gate of day 3 still shows the passed one. */
  lemma CheckLeavesHardwareStale(c: Config) returns (run: seq<Event>, e: Event)
    requires PlainConfig(c)
    ensures AcceptedAfter(c, run, e) && e.q == SendCheck(CheckOf(c, "c2", LATE, false))
    ensures HardwareCurrent(After(c, SOLE_SEED, run).mem) && !HardwareCurrent(After(c, SOLE_SEED, run + [e]).mem)
  {
    hide RankedAlone, After, Lawful, UtcRun, Possible, HardwareCurrent, KeysCurrent, CheckHarmless, Determined, CheckError, PlainConfig;
    var s: State;
    run, s := NodeGetsRanked(c);
    var r := CheckOf(c, "c2", LATE, false);
    LateCheckHarms(c, s);
    e := Accepts(c, run, SendCheck(r));
    UtcGatesCurrent(c, SOLE_SEED, run);
    ReachableCheckKeepsHardwareIff(c, SOLE_SEED, run, r, e.env, s);
  }

  lemma LateKeyHarms(c: Config, s: State)
    requires PlainConfig(c) && RankedAlone(c, s)
    ensures var r := KeyOf("v2", LATE, false);
      && EvidenceError(c, s, r, LATE_NOW).None?
      && Determined(s.checks) && Determined(s.evidence.votingKeys) && Determined(WithEvidence(s.evidence, r).votingKeys)
      && !KeyHarmless(s, WithEvidence(s.evidence, r).votingKeys[r.header.ref])
  {
    hide TimestampOk, Sorting, StampLess;
    LateText(c);
    assert "v2"[1] != "v1"[1] && "operator" != "";
  }

  /** A voting key that is not present, after which the voting-key gate of day 3 still shows the valid
      one. */
  lemma KeyLeavesGateStale(c: Config) returns (run: seq<Event>, e: Event)
    requires PlainConfig(c)
    ensures AcceptedAfter(c, run, e) && e.q == SendEvidence(KeyOf("v2", LATE, false))
    ensures KeysCurrent(After(c, SOLE_SEED, run).mem) && !KeysCurrent(After(c, SOLE_SEED, run + [e]).mem)
  {
    hide RankedAlone, After, Lawful, UtcRun, Possible, HardwareCurrent, KeysCurrent, KeyHarmless, Determined, EvidenceError, PlainConfig;
    var s: State;
    run, s := NodeGetsRanked(c);
    var r := KeyOf("v2", LATE, false);
    LateKeyHarms(c, s);
    e := Accepts(c, run, SendEvidence(r));
    UtcGatesCurrent(c, SOLE_SEED, run);
    ReachableKeyKeepsGatesIff(c, SOLE_SEED, run, r, e.env, s);
  }

  function LatePlacement(): EvidenceRequest {
    PlacementOn("n", "e", LATE, "DE", "a", "c")
  }

  lemma LatePlacementAccepted(c: Config, s: State)
    requires PlainConfig(c) && RankedAlone(c, s)
    ensures var r := LatePlacement();
      && EvidenceError(c, s, r, LATE_NOW).None? && s.evidence.placements == map[] && Determined(WithEvidence(s.evidence, r).placements)
      && ("n", 3) in s.derived.bases
  {
    hide TimestampOk, Sorting, Trim, Upper, Blank;
    LateText(c);
    BarTexts();
    PlacementAccepted(c, s, "n", "e", LATE, "DE", "a", "c", LATE_NOW);
  }

  function NoLooks(n: nat): (looks: seq<Look>)
    ensures |looks| == n && forall i :: 0 <= i < n ==> looks[i] == None
  {
    seq(n, _ => None)
  }

  lemma NothingPlaced(e: Evidence, records: seq<Base>, date: int)
    requires e.placements == map[]
    ensures PlacementsFound(e, records, date, NoLooks(|records|))
  {
  }

  /** A placement after which the ranking of day 3 is not that of the stored evidence. */
  lemma PlacementLeavesRankingStale(c: Config) returns (run: seq<Event>, e: Event)
    requires PlainConfig(c)
    ensures AcceptedAfter(c, run, e) && e.q == SendEvidence(LatePlacement())
    ensures RankingsCurrent(After(c, SOLE_SEED, run).mem) && !RankingsCurrent(After(c, SOLE_SEED, run + [e]).mem)
  {
    hide RankedAlone, After, Lawful, UtcRun, Possible, RankingsCurrent, PlacementsFound, Determined, EvidenceError, PlainConfig, KeyedBy, StateOk, SysOk, Sorting;
    var s: State;
    run, s := NodeGetsRanked(c);
    var r := LatePlacement();
    LateText(c);
    LatePlacementAccepted(c, s);
    e := Accepts(c, run, SendEvidence(r));
    RunOk(c, SOLE_SEED, run);
    MemOk(c, SOLE_SEED, After(c, SOLE_SEED, run));
    MemTablesKeyed(c, SOLE_SEED, s);
    var i := BaseListed(s.derived, "n", 3);
    var records := Listing(OnDate(s.derived.bases, 3));
    NothingPlaced(s.evidence, records, 3);
    UnalignedPlacementStales(c, SOLE_SEED, run, r, e.env, NoLooks(|records|), i, s);
  }

  function LateGroup(): EvidenceRequest {
    GroupRequest(Header("n", "e", At(LATE), "operator_submitted"), "g", "")
  }

  lemma LateGroupAccepted(c: Config, s: State)
    requires PlainConfig(c) && RankedAlone(c, s)
    ensures var r := LateGroup();
      && EvidenceError(c, s, r, LATE_NOW).None? && ReviewOf(r.reviewState) == Some(Review.Accepted) && !Blank(r.operatorGroupId)
      && s.evidence.groups == map[] && s.evidence.domains == map[] && s.evidence.planes == map[]
      && RewardsDetermined(s.evidence) && RewardsDetermined(WithEvidence(s.evidence, r))
  {
    hide TimestampOk, Sorting;
    LateText(c);
    var source := "operator_submitted";
    assert TrimLeft(source) == source && Trim(source) == source;
    assert ReviewOf("") == Some(Review.Accepted);
    assert !Blank("g") by { PlainChar('g'); }
    assert FieldsError(LateGroup()).None?;
  }

  function NoRewardLooks(n: nat): (looks: seq<RewardLook>)
    ensures |looks| == n && forall i :: 0 <= i < n ==> looks[i] == RewardLook(None, None, None)
  {
    seq(n, _ => RewardLook(None, None, None))
  }

  lemma NothingClaimed(e: Evidence, rankings: seq<Ranking>, date: int)
    requires e.groups == map[] && e.domains == map[] && e.planes == map[]
    ensures RewardsFound(e, rankings, date, NoRewardLooks(|rankings|))
  {
  }

  /** The ranked node has its ranking row, of its own group. */
  lemma RankedRow(c: Config, run: seq<Event>, s: State) returns (i: nat)
    requires SeedOk(SOLE_SEED) && Lawful(c, SOLE_SEED, run) && s == After(c, SOLE_SEED, run).mem && RankedAlone(c, s)
    ensures var rows := RankingsOn(s.derived, 3);
      i < |rows| && rows[i].nodeId == "n" && EffectiveGroup(rows[i], None) == "n"
  {
    hide After, Lawful, StateOk, SysOk, Sorting;
    ReachableRowsExist(c, SOLE_SEED, run, ("n", 3));
    RunOk(c, SOLE_SEED, run);
    MemOk(c, SOLE_SEED, After(c, SOLE_SEED, run));
    MemTablesKeyed(c, SOLE_SEED, s);
    var day := OnDate(s.derived.rankings, 3);
    var row := day[("n", 3)];
    assert RankingKey(row) == ("n", 3);
    ListedRow(day, RankingOrder, row);
    i :| 0 <= i < |RankingsOn(s.derived, 3)| && RankingsOn(s.derived, 3)[i] == row;
  }

  /** A group after which the rewards of day 3 are not those of the stored evidence. */
  lemma GroupLeavesRewardsStale(c: Config) returns (run: seq<Event>, e: Event)
    requires PlainConfig(c)
    ensures AcceptedAfter(c, run, e) && e.q == SendEvidence(LateGroup())
    ensures AllRewardsCurrent(c, After(c, SOLE_SEED, run).mem) && !AllRewardsCurrent(c, After(c, SOLE_SEED, run + [e]).mem)
  {
    hide RankedAlone, After, Lawful, UtcRun, Possible, AllRewardsCurrent, RewardsFound, RewardsDetermined, EvidenceError, PlainConfig, EffectiveGroup, Sorting, ReviewOf, Blank;
    var s: State;
    run, s := NodeGetsRanked(c);
    var r := LateGroup();
    LateText(c);
    LateGroupAccepted(c, s);
    e := Accepts(c, run, SendEvidence(r));
    var i := RankedRow(c, run, s);
    var rankings := RankingsOn(s.derived, 3);
    NothingClaimed(s.evidence, rankings, 3);
    assert "g"[0] != "n"[0];
    UnalignedGroupStales(c, SOLE_SEED, run, r, e.env, NoRewardLooks(|rankings|), i, s);
  }

  // ---- A heartbeat gate made stale by a heartbeat of the date before ----

  /** The second heartbeat of the last fifteen minutes, from the last second of day 2. */
  function LateBeat(): HeartbeatRequest {
    HeartbeatRequest("n", "f", At(Stamp(START - 1, Zulu)), 2, 1, true)
  }

  lemma CountedAlone<T>(x: T, test: T -> bool)
    requires test(x)
    ensures Count([x], test) == 1
  {
    assert [x][..0] == [];
  }

  lemma LateBeatOpens(c: Config, s: State)
    requires c.clockSkew >= 1 && Holds(s, EnrolledNode(c, 1), PROBES, CHECKS, KEYS, BEATS[..1])
    ensures HeartbeatError(c, s, LateBeat(), NOW).None?
    ensures OpensLater(s, LateBeat(), ("n", 3), NOW) && UtcDate(LateBeat().at.t) == 2
    ensures forall anchor :: !HasTwoBeats(s, "n", anchor)
  {
    assert s.heartbeats == [BEATS[0]];
    CountedAlone(BEATS[0], RecentBeat("n", NOW, HEALTHY_WINDOW));
    assert "key" != "";
  }

  /** After one heartbeat of day 3, one that is a second older counts for day 2: day 3 stays without a
      passed heartbeat gate although two heartbeats are now in its window. */
  lemma BeatLeavesGateStale(c: Config) returns (run: seq<Event>, e: Event)
    requires PlainConfig(c) && c.clockSkew >= 1
    ensures SeedOk(SOLE_SEED) && Lawful(c, SOLE_SEED, run) && Possible(c, After(c, SOLE_SEED, run), e)
    ensures e.q == Beat(LateBeat()) && e.env.now == NOW && RequestError(c, After(c, SOLE_SEED, run).mem, e.q, NOW).None?
    ensures var s, t := After(c, SOLE_SEED, run).mem, After(c, SOLE_SEED, run + [e]).mem;
      && ("n", 3) in s.derived.decisions && s.derived.decisions[("n", 3)].heartbeatPassed == GateNow(s, ("n", 3), NOW)
      && ("n", 3) in t.derived.decisions && t.derived.decisions[("n", 3)].heartbeatPassed != GateNow(t, ("n", 3), NOW)
  {
    hide After, Lawful, UtcRun, Possible, Holds, PlainConfig, Settled, SameButAlerts, GateNow, HeartbeatError, OpensLater, HasTwoBeats, StateOk, SysOk;
    var s: State;
    run, s := NearlyRankedRun(c);
    SoleSeedOk();
    LateBeatOpens(c, s);
    e := Extended(c, SOLE_SEED, run, Beat(LateBeat()), NOW);
    RunOk(c, SOLE_SEED, run);
    MemOk(c, SOLE_SEED, After(c, SOLE_SEED, run));
    ClosedGate(c, s);
    SecondOnly(s, LateBeat(), ("n", 3), NOW);
    BeatKeepsGateIff(c, s, LateBeat(), e.env, ("n", 3));
    SameGates(After(c, SOLE_SEED, run + [e]).mem, Settled(c, s, Beat(LateBeat()), e.env));
  }

  lemma ClosedGate(c: Config, s: State)
    requires StateOk(c, SOLE_SEED, s) && ("n", 3) in s.derived.decisions
    requires forall anchor :: !HasTwoBeats(s, "n", anchor)
    ensures !s.derived.decisions[("n", 3)].heartbeatPassed
  {
    hide WellFormed, HasTwoBeats;
    assert Grounded(s, ("n", 3));
    GroundedIsShown(s, ("n", 3));
  }

  lemma SameGates(t: State, s: State)
    requires SameButAlerts(t, s)
    ensures t.derived == s.derived && forall k, now :: GateNow(t, k, now) == GateNow(s, k, now)
  {
  }
}
