/** After a run in UTC everything agrees.  Exactly when the next accepted probe, check or voting key keeps
    it so, and families of placements and groups that do not. */
module StaleRuns {
  import opened Records
  import opened Texts
  import opened Tables
  import opened RankingRules
  import opened AntiConcentration
  import opened PortalState
  import opened ProbeSummary
  import opened Views
  import opened Pipeline
  import opened Portal
  import opened Reachable
  import opened PortalRuns
  import opened Guarantees
  import opened EvidenceAgreement
  import opened UtcRuns
  import opened Progress

  // ---- Probes, checks and voting keys ----

  lemma SameSummaries(c: Config, t: State, s: State)
    requires SameButAlerts(t, s)
    ensures SummariesExact(c, t) <==> SummariesExact(c, s)
    ensures HardwareCurrent(t) <==> HardwareCurrent(s)
    ensures KeysCurrent(t) <==> KeysCurrent(s)
  {
    hide IsLatest, SummaryOf;
  }

  /** The memory after one more accepted request. */
  lemma NextMemory(c: Config, seed: map<string, Node>, run: seq<Event>, e: Event, s: State)
    requires SeedOk(seed) && Lawful(c, seed, run) && Possible(c, After(c, seed, run), e) && s == After(c, seed, run).mem
    requires RequestError(c, s, e.q, e.env.now).None? && !e.q.Restart?
    ensures SameButAlerts(After(c, seed, run + [e]).mem, Settled(c, s, e.q, e.env))
    ensures LooksFound(c, Noted(c, s, e.q, e.env.now), RebuildOf(e.q), e.env)
  {
    hide Step, Settled, RequestError, SysOk, SeedOk, SameButAlerts, LooksFound, Noted, After, Lawful;
    RunOk(c, seed, run);
    AfterOneMore(c, seed, run, e);
    StepLeavesSettled(c, seed, After(c, seed, run), e);
  }

  /** After a run in UTC, an accepted probe keeps every stored summary equal to the recount if and only if
      its time text names its UTC date or no summary is stored for its node and the date it names. */
  lemma ReachableProbeKeepsSummariesIff(c: Config, seed: map<string, Node>, run: seq<Event>, r: ProbeRequest, env: Env, s: State)
    requires SeedOk(seed) && Lawful(c, seed, run) && UtcRun(run) && s == After(c, seed, run).mem
    requires Possible(c, After(c, seed, run), Event(SendProbe(r), env)) && ProbeError(c, s, r, env.now).None?
    ensures SummariesExact(c, After(c, seed, run + [Event(SendProbe(r), env)]).mem)
      <==> Aligned(r.observedAt.t) || (r.nodeId, TextDate(r.observedAt.t)) !in s.derived.summaries
  {
    hide After, Lawful, UtcRun, Possible, Settled, SummariesExact, SameButAlerts, LooksFound, Noted;
    UtcRunsAgree(c, seed, run);
    NextMemory(c, seed, run, Event(SendProbe(r), env), s);
    SameSummaries(c, After(c, seed, run + [Event(SendProbe(r), env)]).mem, Settled(c, s, SendProbe(r), env));
    ProbeKeepsSummariesIff(c, s, r, env);
  }

  /** After a run in UTC, an accepted check keeps the hardware gates of all decisions current if and only if
      it is harmless. */
  lemma ReachableCheckKeepsHardwareIff(c: Config, seed: map<string, Node>, run: seq<Event>, r: CheckRequest, env: Env, s: State)
    requires SeedOk(seed) && Lawful(c, seed, run) && UtcRun(run) && s == After(c, seed, run).mem
    requires Possible(c, After(c, seed, run), Event(SendCheck(r), env)) && CheckError(c, s, r, env.now).None?
    requires Determined(s.checks) && Determined(s.evidence.votingKeys) && Determined(WithCheck(s, r).checks)
    ensures HardwareCurrent(After(c, seed, run + [Event(SendCheck(r), env)]).mem)
      <==> CheckHarmless(s, WithCheck(s, r).checks[r.eventId])
  {
    hide After, Lawful, UtcRun, Possible, Settled, HardwareCurrent, KeysCurrent, SameButAlerts, LooksFound, Noted, Determined, CheckHarmless, AllPassed;
    UtcGatesCurrent(c, seed, run);
    NextMemory(c, seed, run, Event(SendCheck(r), env), s);
    SameSummaries(c, After(c, seed, run + [Event(SendCheck(r), env)]).mem, Settled(c, s, SendCheck(r), env));
    CheckKeepsHardwareIff(c, s, r, env);
  }

  /** After a run in UTC, an accepted voting key keeps the voting-key gates of all decisions current if and
      only if it is harmless. */
  lemma ReachableKeyKeepsGatesIff(c: Config, seed: map<string, Node>, run: seq<Event>, r: EvidenceRequest, env: Env, s: State)
    requires SeedOk(seed) && Lawful(c, seed, run) && UtcRun(run) && s == After(c, seed, run).mem && r.VotingKeyRequest?
    requires Possible(c, After(c, seed, run), Event(SendEvidence(r), env)) && EvidenceError(c, s, r, env.now).None?
    requires Determined(s.checks) && Determined(s.evidence.votingKeys) && Determined(WithEvidence(s.evidence, r).votingKeys)
    ensures KeysCurrent(After(c, seed, run + [Event(SendEvidence(r), env)]).mem)
      <==> KeyHarmless(s, WithEvidence(s.evidence, r).votingKeys[r.header.ref])
  {
    hide After, Lawful, UtcRun, Possible, Settled, HardwareCurrent, KeysCurrent, SameButAlerts, LooksFound, Noted, Determined, KeyHarmless;
    UtcGatesCurrent(c, seed, run);
    NextMemory(c, seed, run, Event(SendEvidence(r), env), s);
    SameSummaries(c, After(c, seed, run + [Event(SendEvidence(r), env)]).mem, Settled(c, s, SendEvidence(r), env));
    VotingKeyKeepsGatesIff(c, s, r, env);
  }

  // ---- Placements and groups ----

  lemma NoLateCandidate<X(!new)>(m: map<string, Observation<X>>, o: Observation<X>)
    requires IsLatest(m, o.nodeId, TextDate(o.observedAt), None)
    ensures !LateCandidate(m, o)
  {
  }

  /** A ranked node's first placement on a date, in a country of its own, earns it points. */
  lemma FirstPlacementMoves(s: State, o: Observation<Placement>, looks: seq<Look>, i: nat)
    requires TablesKeyed(s.derived) && !Aligned(o.observedAt) && o.what.countryCode != ""
    requires var records, date := Listing(OnDate(s.derived.bases, TextDate(o.observedAt))), TextDate(o.observedAt);
      PlacementsFound(s.evidence, records, date, looks) && i < |records| && |looks| == |records|
      && records[i].nodeId == o.nodeId && looks[i].None?
    requires forall j :: 0 <= j < |looks| && looks[j].Some? ==> looks[j].value.what.countryCode != o.what.countryCode
    ensures !PlacementHarmless(s, o, looks)
  {
    hide IsLatest, Sorting, StampLess, LeavesAlone, EarnsInfra;
    var date := TextDate(o.observedAt);
    var records := Listing(OnDate(s.derived.bases, date));
    ListedBaseKey(s.derived, date, i);
    assert IsLatest(s.evidence.placements, records[i].nodeId, date, looks[i]);
    NoLateCandidate(s.evidence.placements, o);
    assert EarnsCountry(looks, i, Some(o)) && !EarnsCountry(looks, i, looks[i]);
    assert !NewcomerInert(looks, i, Some(o));
  }

  /** After any run in UTC: an accepted placement whose time text names another date than its UTC date, on
      which its node is ranked without placement and no ranked node is in its country, leaves that date's
      ranking other than the stored evidence gives. */
  lemma UnalignedPlacementStales(c: Config, seed: map<string, Node>, run: seq<Event>, r: EvidenceRequest, env: Env, looks: seq<Look>, i: nat, s: State)
    requires SeedOk(seed) && Lawful(c, seed, run) && UtcRun(run) && s == After(c, seed, run).mem
    requires Possible(c, After(c, seed, run), Event(SendEvidence(r), env))
    requires r.PlacementRequest? && EvidenceError(c, s, r, env.now).None? && Determined(WithEvidence(s.evidence, r).placements)
    requires !Aligned(r.header.observedAt.t)
    requires var records := Listing(OnDate(s.derived.bases, TextDate(r.header.observedAt.t)));
      PlacementsFound(s.evidence, records, TextDate(r.header.observedAt.t), looks) && i < |records| && |looks| == |records|
      && records[i].nodeId == r.header.nodeId && looks[i].None?
    requires forall j :: 0 <= j < |looks| && looks[j].Some? ==> looks[j].value.what.countryCode != Upper(Trim(r.countryCode))
    ensures RankingsCurrent(s) && !RankingsCurrent(After(c, seed, run + [Event(SendEvidence(r), env)]).mem)
  {
    hide After, Lawful, UtcRun, Possible, RankingsCurrent, Determined, PlacementsFound, PlacementHarmless, Sorting, StateOk, SavedOk;
    UtcRunsAgree(c, seed, run);
    RunOk(c, seed, run);
    MemTablesKeyed(c, seed, s);
    var o := WithEvidence(s.evidence, r).placements[r.header.ref];
    CountryNamed(r);
    FirstPlacementMoves(s, o, looks, i);
    ReachablePlacementKeepsRankingsIff(c, seed, run, r, env, looks);
  }

  lemma CountryNamed(r: EvidenceRequest)
    requires r.PlacementRequest? && FieldsError(r).None?
    ensures Upper(Trim(r.countryCode)) != ""
  {
  }

  /** A ranked node's first group on a date, if it is not the one the node counted as. */
  lemma FirstGroupMoves(s: State, r: EvidenceRequest, f: Evidence, looks: seq<RewardLook>, i: nat)
    requires r.GroupRequest? && r.header.observedAt.At? && !Aligned(r.header.observedAt.t)
    requires var rankings := RankingsOn(s.derived, TextDate(r.header.observedAt.t));
      i < |rankings| == |looks| && rankings[i].nodeId == r.header.nodeId && looks[i].group.None?
      && r.operatorGroupId != EffectiveGroup(rankings[i], None)
    requires r.header.ref in f.groups && f.groups[r.header.ref].observedAt == r.header.observedAt.t
    requires f.groups[r.header.ref].what.review == Accepted && f.groups[r.header.ref].what.operatorGroupId == r.operatorGroupId
    requires !Blank(r.operatorGroupId)
    ensures !RewardEvidenceHarmless(s, r, f, looks)
  {
    hide Sorting, Exclusion, OutcomeKept, Blank;
    var date := TextDate(r.header.observedAt.t);
    var rankings := RankingsOn(s.derived, date);
    var claims := Claims(rankings, looks);
    var x := ClaimOf(rankings[i], RewardLookWith(looks[i], r, f, date));
    assert x.group == r.operatorGroupId && claims[i].group != x.group;
    assert !ClaimAlike(claims[i := x], claims, i);
  }

  /** After any run in UTC: an accepted group, reviewed as accepted, whose time text names another date than
      its UTC date, on which its node is ranked without group evidence and under another group, leaves that
      date's rewards other than the stored evidence gives. */
  lemma UnalignedGroupStales(c: Config, seed: map<string, Node>, run: seq<Event>, r: EvidenceRequest, env: Env, looks: seq<RewardLook>, i: nat, s: State)
    requires SeedOk(seed) && Lawful(c, seed, run) && UtcRun(run) && s == After(c, seed, run).mem
    requires Possible(c, After(c, seed, run), Event(SendEvidence(r), env))
    requires r.GroupRequest? && EvidenceError(c, s, r, env.now).None?
    requires RewardsDetermined(s.evidence) && RewardsDetermined(WithEvidence(s.evidence, r))
    requires !Aligned(r.header.observedAt.t) && ReviewOf(r.reviewState) == Some(Review.Accepted) && !Blank(r.operatorGroupId)
    requires var rankings := RankingsOn(s.derived, TextDate(r.header.observedAt.t));
      RewardsFound(s.evidence, rankings, TextDate(r.header.observedAt.t), looks) && |looks| == |rankings|
      && i < |rankings| && rankings[i].nodeId == r.header.nodeId && looks[i].group.None?
      && r.operatorGroupId != EffectiveGroup(rankings[i], None)
    ensures AllRewardsCurrent(c, s) && !AllRewardsCurrent(c, After(c, seed, run + [Event(SendEvidence(r), env)]).mem)
  {
    hide After, Lawful, UtcRun, Possible, AllRewardsCurrent, RewardsDetermined, RewardsFound, RewardEvidenceHarmless, Sorting, EffectiveGroup, Trim, Blank, ReviewOf;
    UtcRunsAgree(c, seed, run);
    FirstGroupMoves(s, r, WithEvidence(s.evidence, r), looks, i);
    ReachableEvidenceKeepsRewardsIff(c, seed, run, r, env, looks);
  }
}
