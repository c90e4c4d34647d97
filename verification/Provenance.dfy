/** Where everything in the store comes from: requests sent earlier in the run that were complete, signed
    where they must be, and in time; and what each of them puts there. */
module Provenance {
  import opened Records
  import opened Texts
  import opened PortalState
  import opened Portal
  import opened Reachable
  import opened PortalRuns
  import opened Accounts

  // ---- When a request is accepted ----

  /** Not further from now than the allowed seconds of skew, either way. */
  predicate InTime(c: Config, t: TimeText, now: int) {
    t.At? && now - c.clockSkew * 1_000_000_000 <= Instant(t.t) * 1_000_000_000 <= now + c.clockSkew * 1_000_000_000
  }

  /** Signed under the key that the node enrolled. */
  predicate SignedBy(s: State, nodeId: string, fingerprint: string, signed: bool) {
    signed && nodeId in s.nodes && s.nodes[nodeId].publicKey != "" && s.nodes[nodeId].fingerprint == fingerprint
  }

  predicate GenuineEnrollment(s: State, r: EnrollRequest, now: int) {
    && r.nodeId != "" && r.challengeId != "" && r.publicKey != "" && r.signature != ""
    && r.nodeId in s.nodes && r.challengeId in s.challenges
    && s.challenges[r.challengeId].nodeId == r.nodeId && s.challenges[r.challengeId].usedAt.None?
    && now < s.challenges[r.challengeId].expiresAt * 1_000_000_000
    && r.fingerprint.Some? && r.signed
  }

  predicate GenuineBeat(c: Config, s: State, r: HeartbeatRequest, now: int) {
    && SignedBy(s, r.nodeId, r.fingerprint, r.signed) && InTime(c, r.at, now)
    && r.generation == s.nodes[r.nodeId].generation && r.sequence > s.nodes[r.nodeId].lastSequence
  }

  /** All six partial results are there, and whether all of them passed. */
  predicate ResultsAre(k: SubChecks, passed: bool) {
    && k.cpu.Some? && k.disk.Some? && k.ram.Some? && k.storageSize.Some? && k.ssd.Some? && k.cpuLoad.Some?
    && passed == (false !in {k.cpu.value, k.disk.value, k.ram.value, k.storageSize.value, k.ssd.value, k.cpuLoad.value})
  }

  predicate GenuineCheck(c: Config, s: State, r: CheckRequest, now: int) {
    && SignedBy(s, r.nodeId, r.fingerprint, r.signed) && InTime(c, r.checkedAt, now)
    && r.policyVersion == c.policy.version && r.schemaVersion == "1"
    && r.cpuProfileId == c.policy.cpuProfileId && r.diskProfileId == c.policy.diskProfileId
    && r.eventId != "" && r.eventId !in s.checks
    && (r.eventType == "registration" || r.eventType == "voting_key_renewal" || r.eventType == "recheck")
    && r.overall.Some? && ResultsAre(r.subChecks, r.overall.value)
  }

  predicate GenuineTelemetry(c: Config, s: State, r: TelemetryRequest, now: int) {
    && SignedBy(s, r.nodeId, r.fingerprint, r.signed) && InTime(c, r.at, now)
    && r.policyVersion == c.policy.version && r.flags.Some? && r.flags.value != []
  }

  /** Absent, or a number from zero on. */
  predicate CountOrAbsent(f: Field) {
    f.Absent? || (f.Is? && f.n >= 0)
  }

  predicate GenuineProbe(c: Config, s: State, r: ProbeRequest, now: int) {
    && r.schemaVersion == "1" && r.probeId != "" && r.nodeId != "" && r.regionId != "" && r.endpoint != ""
    && r.nodeId in s.nodes && r.probeId !in s.probes && InTime(c, r.observedAt, now)
    && r.up.Some? && r.window.Is? && r.window.n > 0
    && CountOrAbsent(r.finalizedLag) && CountOrAbsent(r.chainLag) && CountOrAbsent(r.sourceHeight)
    && CountOrAbsent(r.peerHeight) && CountOrAbsent(r.httpStatus)
    && (r.up.value ==> r.finalizedLag.Is? && r.chainLag.Is? && r.sourceHeight.Is? && r.peerHeight.Is?)
  }

  predicate FromSource(text: string) {
    text == "manual_review" || text == "probe_derived" || text == "operator_submitted"
  }

  predicate ReviewTextOf(text: string, review: Review) {
    var word := Lower(Trim(text));
    match review
    case Accepted => word == "" || word == "accepted"
    case Pending => word == "pending"
    case Rejected => word == "rejected"
  }

  predicate ReviewTextKnown(text: string) {
    ReviewTextOf(text, Accepted) || ReviewTextOf(text, Pending) || ReviewTextOf(text, Rejected)
  }

  predicate GenuineEvidence(c: Config, s: State, r: EvidenceRequest, now: int) {
    && r.header.nodeId != "" && r.header.nodeId in s.nodes && r.header.ref != "" && r.header.source != "" && InTime(c, r.header.observedAt, now)
    && match r
       case VotingKeyRequest(h, epoch, present, valid) =>
         h.ref !in s.evidence.votingKeys && epoch.Is? && epoch.n >= 0 && present.Some? && valid.Some?
       case GroupRequest(h, group, review) =>
         h.ref !in s.evidence.groups && group != "" && FromSource(Trim(h.source)) && ReviewTextKnown(review)
       case PlacementRequest(h, country, provider, _, asn) =>
         h.ref !in s.evidence.placements && Trim(country) != "" && Trim(provider) != "" && asn.Is? && asn.n > 0
       case DomainRequest(h, domain) =>
         h.ref !in s.evidence.domains && Trim(domain) != ""
       case PlaneRequest(h, plane, classification, review) =>
         && h.ref !in s.evidence.planes && Trim(plane) != "" && FromSource(Trim(h.source)) && ReviewTextKnown(review)
         && (Trim(classification) == "managed_provider" || Trim(classification) == "operational_contractor"
             || Trim(classification) == "shared_certificate_admin" || Trim(classification) == "material_overlap")
  }

  predicate Genuine(c: Config, s: State, q: Request, now: int) {
    match q
    case Issue(nodeId) => nodeId != "" && nodeId in s.nodes
    case Enroll(r) => GenuineEnrollment(s, r, now)
    case Beat(r) => GenuineBeat(c, s, r, now)
    case SendCheck(r) => GenuineCheck(c, s, r, now)
    case SendTelemetry(r) => GenuineTelemetry(c, s, r, now)
    case SendProbe(r) => GenuineProbe(c, s, r, now)
    case SendEvidence(r) => GenuineEvidence(c, s, r, now)
    case _ => true
  }

  lemma EvidenceAcceptedIff(c: Config, s: State, r: EvidenceRequest, now: nat)
    ensures EvidenceError(c, s, r, now).None? <==> GenuineEvidence(c, s, r, now)
  {
    hide Trim, Lower;
    assert Trim("") == "" by { TrimNothing(); }
  }

  lemma TrimNothing()
    ensures Trim("") == ""
  {
  }

  lemma ProbeAcceptedIff(c: Config, s: State, r: ProbeRequest, now: nat)
    ensures ProbeError(c, s, r, now).None? <==> GenuineProbe(c, s, r, now)
  {
    hide Instant;
  }

  lemma CheckAcceptedIff(c: Config, s: State, r: CheckRequest, now: nat)
    ensures CheckError(c, s, r, now).None? <==> GenuineCheck(c, s, r, now)
  {
    hide Instant;
  }

  /** A request is accepted if and only if it is complete and well-formed, from a known node, signed under
      the enrolled key if it comes from an agent, in time, and not a repetition. */
  lemma AcceptedIffGenuine(c: Config, s: State, q: Request, now: nat)
    ensures RequestError(c, s, q, now).None? <==> Genuine(c, s, q, now)
  {
    hide EvidenceError, GenuineEvidence, ProbeError, GenuineProbe, CheckError, GenuineCheck, Instant;
    match q
    case SendEvidence(r) => EvidenceAcceptedIff(c, s, r, now);
    case SendProbe(r) => ProbeAcceptedIff(c, s, r, now);
    case SendCheck(r) => CheckAcceptedIff(c, s, r, now);
    case _ =>
  }

  // ---- What a refusal says ----

  /** Which refusal a heartbeat gets: the first of these that is wrong with it. */
  lemma HeartbeatRefusals(c: Config, s: State, r: HeartbeatRequest, now: nat)
    ensures var error := HeartbeatError(c, s, r, now);
      var known := r.nodeId in s.nodes;
      var keyed := known && s.nodes[r.nodeId].publicKey != "" && s.nodes[r.nodeId].fingerprint == r.fingerprint;
      var current := keyed && r.generation == s.nodes[r.nodeId].generation;
      && (error == Some(UnknownNode) <==> !known)
      && (error == Some(UnknownFingerprint) <==> known && !keyed)
      && (error == Some(GenerationMismatch) <==> keyed && !current)
      && (error == Some(InvalidTimestamp) <==> current && !InTime(c, r.at, now))
      && (error == Some(InvalidSignature) <==> current && InTime(c, r.at, now) && !r.signed)
      && (error == Some(StaleSequence) <==> current && InTime(c, r.at, now) && r.signed && r.sequence <= s.nodes[r.nodeId].lastSequence)
  {
    hide Instant;
  }

  /** Which refusal an enrollment gets. */
  lemma EnrollmentRefusals(s: State, r: EnrollRequest, now: nat)
    ensures var error := EnrollError(s, r, now);
      var complete := r.nodeId != "" && r.challengeId != "" && r.publicKey != "" && r.signature != "";
      var known := complete && r.nodeId in s.nodes;
      var issued := known && r.challengeId in s.challenges && s.challenges[r.challengeId].nodeId == r.nodeId;
      var unused := issued && s.challenges[r.challengeId].usedAt.None?;
      var open := unused && now < s.challenges[r.challengeId].expiresAt * 1_000_000_000;
      && (error == Some(MissingField) <==> !complete)
      && (error == Some(UnknownNode) <==> complete && !known)
      && (error == Some(InvalidChallenge) <==> known && !issued)
      && (error == Some(ChallengeUsed) <==> issued && !unused)
      && (error == Some(ChallengeExpired) <==> unused && !open)
      && (error == Some(InvalidPublicKey) <==> open && r.fingerprint.None?)
      && (error == Some(InvalidSignature) <==> open && r.fingerprint.Some? && !r.signed)
  {
  }

  /** A check, a probe or a piece of evidence is refused as a repetition exactly if it is genuine but for its
      id or reference being taken. */
  lemma RepetitionsRefused(c: Config, s: State, check: CheckRequest, probe: ProbeRequest, now: nat)
    ensures CheckError(c, s, check, now) == Some(Duplicate)
      <==> check.eventId in s.checks && GenuineCheck(c, s.(checks := s.checks - {check.eventId}), check, now)
    ensures ProbeError(c, s, probe, now) == Some(Duplicate)
      <==> probe.probeId in s.probes && GenuineProbe(c, s.(probes := s.probes - {probe.probeId}), probe, now)
  {
    hide Instant;
  }

  /** The evidence tables without what is stored under this reference. */
  function Without(e: Evidence, ref: string): Evidence {
    Evidence(e.groups - {ref}, e.votingKeys - {ref}, e.placements - {ref}, e.domains - {ref}, e.planes - {ref})
  }

  lemma EvidenceRepetitionRefused(c: Config, s: State, r: EvidenceRequest, now: nat)
    ensures EvidenceError(c, s, r, now) == Some(Duplicate)
      <==> RefTaken(s.evidence, r) && GenuineEvidence(c, s.(evidence := Without(s.evidence, r.header.ref)), r, now)
  {
    hide FieldsError, NumbersError, TimestampOk, GenuineEvidence;
    var t := s.(evidence := Without(s.evidence, r.header.ref));
    EvidenceAcceptedIff(c, t, r, now);
    NoOtherDuplicate(r);
    assert !RefTaken(t.evidence, r);
  }

  lemma NoOtherDuplicate(r: EvidenceRequest)
    ensures FieldsError(r) != Some(Duplicate) && NumbersError(r) != Some(Duplicate)
  {
    hide Trim, ReviewOf;
  }

  // ---- What the store holds, and what a request brings ----

  /** One thing in the store that a request put there; a challenge as it was issued. */
  datatype Fact =
    | Issued(challenge: Challenge)
    | Heard(beat: Heartbeat)
    | Checked(check: Observation<Check>)
    | Probed(probe: Observation<Probe>)
    | Keyed(key: Observation<VotingKey>)
    | Grouped(group: Observation<GroupClaim>)
    | Placed(placement: Observation<Placement>)
    | Domained(domain: Observation<DomainClaim>)
    | Planed(plane: Observation<ControlClaim>)

  ghost predicate Stored(s: State, f: Fact) {
    match f
    case Issued(challenge) => exists id :: id in s.challenges && s.challenges[id].(usedAt := None) == challenge
    case Heard(beat) => beat in multiset(s.heartbeats)
    case Checked(o) => o in s.checks.Values
    case Probed(o) => o in s.probes.Values
    case Keyed(o) => o in s.evidence.votingKeys.Values
    case Grouped(o) => o in s.evidence.groups.Values
    case Placed(o) => o in s.evidence.placements.Values
    case Domained(o) => o in s.evidence.domains.Values
    case Planed(o) => o in s.evidence.planes.Values
  }

  predicate About<X>(o: Observation<X>, h: Header) {
    h.observedAt.At? && o.ref == h.ref && o.nodeId == h.nodeId && o.observedAt == h.observedAt.t
  }

  predicate LagOf(lag: Option<int>, f: Field) {
    if f.Is? then lag == Some(f.n) else lag.None?
  }

  predicate ProbeBrought(r: ProbeRequest, o: Observation<Probe>) {
    && r.observedAt.At? && r.up.Some? && o.ref == r.probeId && o.nodeId == r.nodeId && o.observedAt == r.observedAt.t
    && o.what.regionId == r.regionId && o.what.up == r.up.value
    && LagOf(o.what.finalizedLag, r.finalizedLag) && LagOf(o.what.chainLag, r.chainLag)
    && LagOf(o.what.sourceHeight, r.sourceHeight) && LagOf(o.what.peerHeight, r.peerHeight)
  }

  predicate EvidenceBrought(r: EvidenceRequest, f: Fact) {
    match (r, f)
    case (VotingKeyRequest(h, epoch, present, valid), Keyed(o)) =>
      About(o, h) && epoch.Is? && present.Some? && valid.Some? && o.what == VotingKey(epoch.n, present.value, valid.value, h.source)
    case (GroupRequest(h, group, review), Grouped(o)) =>
      About(o, h) && o.what.operatorGroupId == group && o.what.source == Trim(h.source) && ReviewTextOf(review, o.what.review)
    case (PlacementRequest(h, country, provider, infrastructure, asn), Placed(o)) =>
      About(o, h) && asn.Is? && o.what == Placement(Upper(Trim(country)), asn.n, Trim(provider), Trim(infrastructure), h.source)
    case (DomainRequest(h, domain), Domained(o)) =>
      About(o, h) && o.what == DomainClaim(Lower(Trim(domain)), h.source)
    case (PlaneRequest(h, plane, classification, review), Planed(o)) =>
      About(o, h) && o.what.controlPlaneId == Trim(plane) && o.what.classification == Trim(classification)
      && o.what.source == Trim(h.source) && ReviewTextOf(review, o.what.review)
    case _ => false
  }

  /** What an accepted request puts into the store. */
  predicate Brings(c: Config, q: Request, now: nat, f: Fact) {
    match (q, f)
    case (Issue(nodeId), Issued(challenge)) =>
      && challenge.id == nodeId + "-" + Numeral(now) && challenge.nodeId == nodeId && challenge.usedAt.None?
      && challenge.issuedAt == now / 1_000_000_000 && challenge.expiresAt == (now + c.challengeTtl) / 1_000_000_000
    case (Beat(r), Heard(beat)) => r.at.At? && beat == Heartbeat(r.nodeId, r.at.t, r.sequence)
    case (SendCheck(r), Checked(o)) =>
      && r.checkedAt.At? && o.ref == r.eventId && o.nodeId == r.nodeId && o.observedAt == r.checkedAt.t
      && ResultsAre(r.subChecks, o.what.overallPassed)
    case (SendProbe(r), Probed(o)) => ProbeBrought(r, o)
    case (SendEvidence(r), _) => EvidenceBrought(r, f)
    case _ => false
  }

  /** An accepted event adds to the store exactly what its request brings; a challenge may take the place of
      one with its id. */
  lemma NotedAdds(c: Config, s: State, q: Request, now: nat, f: Fact)
    requires RequestError(c, s, q, now).None? && Genuine(c, s, q, now)
    ensures Stored(Noted(c, s, q, now), f) ==> Stored(s, f) || Brings(c, q, now, f)
    ensures Brings(c, q, now, f) ==> Stored(Noted(c, s, q, now), f)
    ensures !f.Issued? && Stored(s, f) ==> Stored(Noted(c, s, q, now), f)
  {
    match q
    case Issue(nodeId) => IssueAdds(c, s, nodeId, now, f);
    case Enroll(r) => EnrollmentAdds(c, s, r, now, f);
    case Beat(r) => BeatAdds(c, s, r, now, f);
    case SendCheck(r) => CheckAdds(c, s, r, now, f);
    case SendProbe(r) => ProbeAdds(c, s, r, now, f);
    case SendEvidence(r) => EvidenceAdds(c, s, r, now, f);
    case _ =>
  }

  lemma IssueAdds(c: Config, s: State, nodeId: string, now: nat, f: Fact)
    ensures var t, q := WithChallenge(c, s, nodeId, now), Issue(nodeId);
      && (Stored(t, f) ==> Stored(s, f) || Brings(c, q, now, f))
      && (Brings(c, q, now, f) ==> Stored(t, f))
      && (!f.Issued? && Stored(s, f) ==> Stored(t, f))
  {
    var t, made := WithChallenge(c, s, nodeId, now), NewChallenge(c, nodeId, now);
    assert t.challenges[made.id] == made && made.(usedAt := None) == made;
    if f.Issued? && Stored(t, f) {
      var id :| id in t.challenges && t.challenges[id].(usedAt := None) == f.challenge;
      assert id != made.id ==> id in s.challenges && s.challenges[id] == t.challenges[id];
    }
  }

  lemma EnrollmentAdds(c: Config, s: State, r: EnrollRequest, now: nat, f: Fact)
    requires EnrollError(s, r, now).None?
    ensures Stored(WithEnrollment(c, s, r, now), f) <==> Stored(s, f)
  {
    var t := WithEnrollment(c, s, r, now);
    forall id | id in s.challenges
      ensures id in t.challenges && t.challenges[id].(usedAt := None) == s.challenges[id].(usedAt := None)
    {
    }
  }

  lemma BeatAdds(c: Config, s: State, r: HeartbeatRequest, now: nat, f: Fact)
    requires HeartbeatError(c, s, r, now).None?
    ensures Stored(WithHeartbeat(c, s, r), f) <==> Stored(s, f) || Brings(c, Beat(r), now, f)
  {
  }

  lemma ValuesGrow<X>(m: map<string, X>, key: string, x: X)
    requires key !in m
    ensures m[key := x].Values == m.Values + {x}
  {
    var n := m[key := x];
    assert n[key] == x;
    forall v | v in m.Values
      ensures v in n.Values
    {
      var k :| k in m && m[k] == v;
      assert n[k] == v;
    }
  }

  lemma CheckAdds(c: Config, s: State, r: CheckRequest, now: nat, f: Fact)
    requires CheckError(c, s, r, now).None? && GenuineCheck(c, s, r, now)
    ensures Stored(WithCheck(s, r), f) <==> Stored(s, f) || Brings(c, SendCheck(r), now, f)
  {
    ValuesGrow(s.checks, r.eventId, Observation(r.eventId, r.nodeId, r.checkedAt.t, Check(r.overall.value)));
  }

  lemma ProbeAdds(c: Config, s: State, r: ProbeRequest, now: nat, f: Fact)
    requires ProbeError(c, s, r, now).None? && GenuineProbe(c, s, r, now)
    ensures Stored(WithProbe(s, r), f) <==> Stored(s, f) || Brings(c, SendProbe(r), now, f)
  {
    ValuesGrow(s.probes, r.probeId, Observation(r.probeId, r.nodeId, r.observedAt.t, ProbeOf(r)));
  }

  lemma ReviewRead(text: string, review: Review)
    requires ReviewOf(text).Some?
    ensures ReviewTextOf(text, review) <==> ReviewOf(text) == Some(review)
  {
    hide Trim, Lower;
    assert "accepted"[0] != "pending"[0] && "accepted"[0] != "rejected"[0] && "pending"[0] != "rejected"[0];
  }

  lemma EvidenceAdds(c: Config, s: State, r: EvidenceRequest, now: nat, f: Fact)
    requires EvidenceError(c, s, r, now).None? && GenuineEvidence(c, s, r, now)
    ensures Stored(s.(evidence := WithEvidence(s.evidence, r)), f) <==> Stored(s, f) || Brings(c, SendEvidence(r), now, f)
  {
    hide Trim, Lower, ReviewTextOf, ReviewOf, EvidenceError, InTime;
    EvidenceReads(c, s, r, now);
    var e, h := s.evidence, r.header;
    match r
    case VotingKeyRequest(_, epoch, present, valid) =>
      ValuesGrow(e.votingKeys, h.ref, Observe(h, VotingKey(epoch.n, present.value, valid.value, h.source)));
    case PlacementRequest(_, country, provider, infrastructure, asn) =>
      ValuesGrow(e.placements, h.ref, Observe(h, Placement(Upper(Trim(country)), asn.n, Trim(provider), Trim(infrastructure), h.source)));
    case DomainRequest(_, domain) =>
      ValuesGrow(e.domains, h.ref, Observe(h, DomainClaim(Lower(Trim(domain)), h.source)));
    case _ => ReviewedAdds(c, s, r, now, f);
  }

  lemma ReviewedAdds(c: Config, s: State, r: EvidenceRequest, now: nat, f: Fact)
    requires EvidenceError(c, s, r, now).None? && GenuineEvidence(c, s, r, now) && (r.GroupRequest? || r.PlaneRequest?)
    ensures Stored(s.(evidence := WithEvidence(s.evidence, r)), f) <==> Stored(s, f) || Brings(c, SendEvidence(r), now, f)
  {
    hide Trim, Lower, ReviewTextOf, ReviewOf, EvidenceError, InTime;
    EvidenceReads(c, s, r, now);
    var e, h := s.evidence, r.header;
    if r.GroupRequest? {
      ValuesGrow(e.groups, h.ref, Observe(h, GroupClaim(r.operatorGroupId, Trim(h.source), ReviewOf(r.reviewState).value)));
      if f.Grouped? {
        ReviewRead(r.reviewState, f.group.what.review);
      }
    } else {
      ValuesGrow(e.planes, h.ref,
        Observe(h, ControlClaim(Trim(r.controlPlaneId), Trim(r.classification), Trim(h.source), ReviewOf(r.reviewState).value)));
      if f.Planed? {
        ReviewRead(r.reviewState, f.plane.what.review);
      }
    }
  }

  lemma EvidenceReads(c: Config, s: State, r: EvidenceRequest, now: nat)
    requires EvidenceError(c, s, r, now).None?
    ensures FieldsError(r).None? && NumbersError(r).None? && r.header.observedAt.At?
    ensures r.GroupRequest? ==> ReviewOf(r.reviewState).Some?
    ensures r.PlaneRequest? ==> ReviewOf(r.reviewState).Some?
  {
    hide Trim, ReviewOf;
  }

  // ---- Runs ----

  /** The i-th event of the run was accepted, and brought this. */
  ghost predicate BroughtAt(c: Config, seed: map<string, Node>, run: seq<Event>, i: nat, f: Fact) {
    i < |run| && Genuine(c, After(c, seed, run[..i]).mem, run[i].q, run[i].env.now) && Brings(c, run[i].q, run[i].env.now, f)
  }

  ghost predicate Brought(c: Config, seed: map<string, Node>, run: seq<Event>, f: Fact) {
    exists i: nat :: BroughtAt(c, seed, run, i, f)
  }

  lemma BroughtLater(c: Config, seed: map<string, Node>, run: seq<Event>, n: nat, f: Fact)
    requires n <= |run| && Brought(c, seed, run[..n], f)
    ensures Brought(c, seed, run, f)
  {
    hide Genuine, Brings, After;
    var i: nat :| BroughtAt(c, seed, run[..n], i, f);
    assert run[..n][..i] == run[..i];
    assert BroughtAt(c, seed, run, i, f);
  }

  lemma SameAccountsStored(s: State, t: State, f: Fact)
    requires SameAccounts(s, t)
    ensures Stored(s, f) <==> Stored(t, f)
  {
  }

  lemma NothingStored(seed: map<string, Node>, f: Fact)
    ensures !Stored(Fresh(seed), f)
  {
  }

  lemma LoggedKeepsStores(c: Config, seed: map<string, Node>, sys: Sys, e: Event)
    ensures Step(c, seed, sys, e.q, e.env).mem == Handle(c, seed, sys, e.q, e.env).0.mem
    ensures Step(c, seed, sys, e.q, e.env).disk == Handle(c, seed, sys, e.q, e.env).0.disk
  {
    hide Handle, RequestError;
  }

  /** What the store and its last save hold after a step was there before, or was brought by the step. */
  lemma StepBrings(c: Config, seed: map<string, Node>, sys: Sys, e: Event, f: Fact)
    requires SeedOk(seed) && SysOk(c, seed, sys) && Possible(c, sys, e)
    ensures var t := Step(c, seed, sys, e.q, e.env);
      Stored(t.mem, f) || Stored(Back(seed, t.disk), f) ==>
        Stored(sys.mem, f) || Stored(Back(seed, sys.disk), f) || (Genuine(c, sys.mem, e.q, e.env.now) && Brings(c, e.q, e.env.now, f))
  {
    hide SysOk, Possible, Step, Handle, RequestError, Genuine, Brings, Stored, Noted, Back, SameAccounts;
    var t := Handle(c, seed, sys, e.q, e.env).0;
    HandlesAccounts(c, seed, sys, e);
    LoggedKeepsStores(c, seed, sys, e);
    AcceptedIffGenuine(c, sys.mem, e.q, e.env.now);
    if RequestError(c, sys.mem, e.q, e.env.now).None? && !e.q.Restart? {
      var noted := Noted(c, sys.mem, e.q, e.env.now);
      NotedAdds(c, sys.mem, e.q, e.env.now, f);
      SameAccountsStored(t.mem, noted, f);
      if SameAccounts(Back(seed, t.disk), noted) {
        SameAccountsStored(Back(seed, t.disk), noted, f);
      }
    }
  }

  /** In every run: everything that the store or its last save holds - every challenge, heartbeat, check,
      probe and piece of evidence, field by field - was brought by an event of the run that was accepted
      when it came. */
  lemma {:induction false} EverythingWasSent(c: Config, seed: map<string, Node>, run: seq<Event>, f: Fact)
    requires SeedOk(seed) && Lawful(c, seed, run)
    requires Stored(After(c, seed, run).mem, f) || Stored(Back(seed, After(c, seed, run).disk), f)
    ensures Brought(c, seed, run, f)
  {
    hide Step, Possible, Genuine, Brings, Stored, SeedOk, Back;
    if run == [] {
      NothingStored(seed, f);
      FreshComesBack(seed);
    } else {
      var n := |run| - 1;
      var front := run[..n];
      RunOk(c, seed, front);
      StepBrings(c, seed, After(c, seed, front), run[n], f);
      if Stored(After(c, seed, front).mem, f) || Stored(Back(seed, After(c, seed, front).disk), f) {
        EverythingWasSent(c, seed, front, f);
        BroughtLater(c, seed, run, n, f);
      } else {
        assert BroughtAt(c, seed, run, n, f);
      }
    }
  }

  lemma FreshComesBack(seed: map<string, Node>)
    ensures Back(seed, None) == Fresh(seed)
  {
  }

  /** After one more event the store holds what it held, and what the event brought if it was accepted: nothing
      is lost and nothing else appears, unless the portal restarts from its last save. */
  lemma StoreHoldsExactly(c: Config, seed: map<string, Node>, run: seq<Event>, e: Event, f: Fact)
    requires SeedOk(seed) && Lawful(c, seed, run) && Possible(c, After(c, seed, run), e) && !f.Issued?
    ensures var sys := After(c, seed, run);
      Stored(Step(c, seed, sys, e.q, e.env).mem, f) <==>
        if e.q.Restart? then Stored(Back(seed, sys.disk), f)
        else Stored(sys.mem, f) || (Genuine(c, sys.mem, e.q, e.env.now) && Brings(c, e.q, e.env.now, f))
  {
    hide SysOk, Possible, Step, Handle, RequestError, Genuine, Brings, Stored, Noted, Back, After, Lawful, SameAccounts;
    var sys := After(c, seed, run);
    RunOk(c, seed, run);
    HandlesAccounts(c, seed, sys, e);
    LoggedKeepsStores(c, seed, sys, e);
    AcceptedIffGenuine(c, sys.mem, e.q, e.env.now);
    if RequestError(c, sys.mem, e.q, e.env.now).None? && !e.q.Restart? {
      NotedAdds(c, sys.mem, e.q, e.env.now, f);
      SameAccountsStored(Handle(c, seed, sys, e.q, e.env).0.mem, Noted(c, sys.mem, e.q, e.env.now), f);
    }
    if e.q.Restart? {
      RestartIsAccepted(c, sys.mem, e);
    }
  }

  lemma RestartIsAccepted(c: Config, s: State, e: Event)
    requires e.q.Restart?
    ensures RequestError(c, s, e.q, e.env.now).None?
  {
  }

  // ---- What an event does to the nodes ----

  /** An accepted enrollment starts the next generation of its node under the new key, from number zero; the
      first one registers the node; the challenge is used up; and nothing else changes. */
  ghost predicate EnrollmentDone(c: Config, s: State, t: State, r: EnrollRequest, now: int) {
    && r.nodeId in s.nodes && r.challengeId in s.challenges && r.fingerprint.Some?
    && var node := s.nodes[r.nodeId];
       && t.nodes == s.nodes[r.nodeId := node.(
            publicKey := r.publicKey, fingerprint := r.fingerprint.value, generation := node.generation + 1, lastSequence := 0,
            registeredAt := Some(if node.registeredAt.Some? then node.registeredAt.value else now / 1_000_000_000),
            lastPolicyVersion := c.policy.version)]
       && t.challenges == s.challenges[r.challengeId := s.challenges[r.challengeId].(usedAt := Some(now / 1_000_000_000))]
  }

  /** An accepted heartbeat moves its node's number and time, and nothing else. */
  ghost predicate BeatDone(c: Config, s: State, t: State, r: HeartbeatRequest) {
    && r.nodeId in s.nodes && r.at.At?
    && t.challenges == s.challenges
    && t.nodes == s.nodes[r.nodeId := s.nodes[r.nodeId].(
         lastSequence := r.sequence, lastHeartbeat := Some(r.at.t), lastPolicyVersion := c.policy.version)]
  }

  /** What any step but a restart leaves of nodes and challenges. */
  lemma NodesAfter(c: Config, seed: map<string, Node>, run: seq<Event>, e: Event)
    requires SeedOk(seed) && Lawful(c, seed, run) && Possible(c, After(c, seed, run), e) && !e.q.Restart?
    ensures var s, t := After(c, seed, run).mem, Step(c, seed, After(c, seed, run), e.q, e.env).mem;
      if !Genuine(c, s, e.q, e.env.now) then t.nodes == s.nodes && t.challenges == s.challenges
      else match e.q
        case Enroll(r) => EnrollmentDone(c, s, t, r, e.env.now)
        case Beat(r) => BeatDone(c, s, t, r)
        case Issue(nodeId) => t.nodes == s.nodes
        case _ => t.nodes == s.nodes && t.challenges == s.challenges
  {
    hide SysOk, Possible, Step, Handle, RequestError, Genuine, Noted, Back, After, Lawful, EnrollmentDone, BeatDone;
    var sys := After(c, seed, run);
    RunOk(c, seed, run);
    HandlesAccounts(c, seed, sys, e);
    LoggedKeepsStores(c, seed, sys, e);
    AcceptedIffGenuine(c, sys.mem, e.q, e.env.now);
    var t := Handle(c, seed, sys, e.q, e.env).0.mem;
    if RequestError(c, sys.mem, e.q, e.env.now).None? {
      NotedNodes(c, sys.mem, e.q, e.env.now, t);
    }
  }

  lemma NotedNodes(c: Config, s: State, q: Request, now: nat, t: State)
    requires RequestError(c, s, q, now).None? && t.nodes == Noted(c, s, q, now).nodes && t.challenges == Noted(c, s, q, now).challenges
    ensures match q
      case Enroll(r) => EnrollmentDone(c, s, t, r, now)
      case Beat(r) => BeatDone(c, s, t, r)
      case Issue(nodeId) => t.nodes == s.nodes
      case _ => t.nodes == s.nodes && t.challenges == s.challenges
  {
    hide CheckError, ProbeError, EvidenceError, TelemetryError;
  }

  // ---- The records of what was accepted ----

  /** The i-th event of the run is this accepted heartbeat: signed under the enrolled key, in time, of the
      node's generation and with a number beyond its last. */
  ghost predicate BeatAt(c: Config, seed: map<string, Node>, run: seq<Event>, i: nat, x: Acceptance) {
    && i < |run| && run[i].q.Beat? && GenuineBeat(c, After(c, seed, run[..i]).mem, run[i].q.beat, run[i].env.now)
    && x.nodeId == run[i].q.beat.nodeId && x.generation == run[i].q.beat.generation && x.sequence == run[i].q.beat.sequence
    && (x.acknowledged ==> run[i].env.saves)
  }

  /** The i-th event is this accepted enrollment. */
  ghost predicate EnrolledAt(c: Config, seed: map<string, Node>, run: seq<Event>, i: nat, x: Enrollment) {
    && i < |run| && run[i].q.Enroll? && GenuineEnrollment(After(c, seed, run[..i]).mem, run[i].q.enroll, run[i].env.now)
    && x.nodeId == run[i].q.enroll.nodeId && x.challengeId == run[i].q.enroll.challengeId
    && (x.acknowledged ==> run[i].env.saves)
  }

  lemma StepLogs(c: Config, seed: map<string, Node>, sys: Sys, e: Event)
    requires SeedOk(seed) && SysOk(c, seed, sys) && Possible(c, sys, e)
    ensures var t := Step(c, seed, sys, e.q, e.env);
      && (t.accepted == sys.accepted ||
           (e.q.Beat? && GenuineBeat(c, sys.mem, e.q.beat, e.env.now)
            && exists acknowledged :: t.accepted == sys.accepted + [Acceptance(e.q.beat.nodeId, e.q.beat.generation, e.q.beat.sequence, acknowledged)]
                 && (acknowledged ==> e.env.saves)))
      && (t.enrolled == sys.enrolled ||
           (e.q.Enroll? && GenuineEnrollment(sys.mem, e.q.enroll, e.env.now)
            && exists acknowledged :: t.enrolled == sys.enrolled + [Enrollment(e.q.enroll.nodeId, e.q.enroll.challengeId, acknowledged)]
                 && (acknowledged ==> e.env.saves)))
  {
    hide SysOk, Possible, Handle, RequestError, Noted, Back, GenuineBeat, GenuineEnrollment, SameAccounts;
    HandlesAccounts(c, seed, sys, e);
    AcceptedIffGenuine(c, sys.mem, e.q, e.env.now);
    if e.q.Beat? || e.q.Enroll? {
      DoneMeansSaved(c, seed, sys, e);
    }
  }

  lemma DoneMeansSaved(c: Config, seed: map<string, Node>, sys: Sys, e: Event)
    requires e.q.Beat? || e.q.Enroll?
    ensures Handle(c, seed, sys, e.q, e.env).1.Done? ==> e.env.saves
  {
    hide RequestError, Alerts, Settled, Persist;
  }

  /** In every run each heartbeat that the portal has counted was a genuine one when it came. */
  lemma {:induction false} CountedBeatsGenuine(c: Config, seed: map<string, Node>, run: seq<Event>, k: nat)
    requires SeedOk(seed) && Lawful(c, seed, run) && k < |After(c, seed, run).accepted|
    ensures exists i: nat :: BeatAt(c, seed, run, i, After(c, seed, run).accepted[k])
  {
    hide Step, Possible, GenuineBeat, GenuineEnrollment, SeedOk;
    if run != [] {
      var n := |run| - 1;
      var front, log := run[..n], After(c, seed, run).accepted;
      RunOk(c, seed, front);
      StepLogs(c, seed, After(c, seed, front), run[n]);
      if k < |After(c, seed, front).accepted| {
        CountedBeatsGenuine(c, seed, front, k);
        var i: nat :| BeatAt(c, seed, front, i, After(c, seed, front).accepted[k]);
        assert front[..i] == run[..i];
        assert BeatAt(c, seed, run, i, log[k]);
      } else {
        assert BeatAt(c, seed, run, n, log[k]);
      }
    }
  }

  lemma {:induction false} EnrollmentsGenuine(c: Config, seed: map<string, Node>, run: seq<Event>, k: nat) returns (i: nat)
    requires SeedOk(seed) && Lawful(c, seed, run) && k < |After(c, seed, run).enrolled|
    ensures EnrolledAt(c, seed, run, i, After(c, seed, run).enrolled[k])
  {
    hide Step, Possible, GenuineBeat, GenuineEnrollment, SeedOk;
    var n := |run| - 1;
    var front, log := run[..n], After(c, seed, run).enrolled;
    RunOk(c, seed, front);
    StepLogs(c, seed, After(c, seed, front), run[n]);
    if k < |After(c, seed, front).enrolled| {
      i := EnrollmentsGenuine(c, seed, front, k);
      assert front[..i] == run[..i];
    } else {
      i := n;
    }
  }

  /** In every run each counted enrollment answers, signed, a challenge that an earlier event of the run
      issued to the same node, and comes before the challenge's time is over. */
  lemma EnrollmentsAnswerChallenges(c: Config, seed: map<string, Node>, run: seq<Event>, k: nat) returns (j: nat, i: nat)
    requires SeedOk(seed) && Lawful(c, seed, run) && k < |After(c, seed, run).enrolled|
    ensures j < i && EnrolledAt(c, seed, run, i, After(c, seed, run).enrolled[k])
    ensures var x := After(c, seed, run).enrolled[k];
      && run[j].q == Issue(x.nodeId) && x.challengeId == x.nodeId + "-" + Numeral(run[j].env.now)
      && run[i].env.now < run[j].env.now + c.challengeTtl
  {
    hide Step, Possible, SeedOk, After, Lawful, SysOk, Stored;
    i := EnrollmentsGenuine(c, seed, run, k);
    PrefixLawful(c, seed, run, i);
    RunOk(c, seed, run[..i]);
    var s, r := After(c, seed, run[..i]).mem, run[i].q.enroll;
    MemOk(c, seed, After(c, seed, run[..i]));
    var issued := s.challenges[r.challengeId].(usedAt := None);
    ChallengeNamed(c, seed, s, r.challengeId);
    EverythingWasSent(c, seed, run[..i], Issued(issued));
    j :| BroughtAt(c, seed, run[..i], j, Issued(issued));
    WholeSecondsBefore(run[i].env.now, run[j].env.now + c.challengeTtl);
  }

  lemma WholeSecondsBefore(now: int, end: int)
    requires now < end / 1_000_000_000 * 1_000_000_000
    ensures now < end
  {
  }

  lemma ChallengeNamed(c: Config, seed: map<string, Node>, s: State, id: string)
    requires StateOk(c, seed, s) && id in s.challenges
    ensures s.challenges[id].id == id && Stored(s, Issued(s.challenges[id].(usedAt := None)))
  {
    hide NodesOk, LogsOk, EvidenceOk, DerivedOk;
    assert TableOk(s.challenges, ChallengeKey, ChallengeNode, seed.Keys);
    assert ChallengeKey(s.challenges[id]) == id;
  }

  lemma {:induction false} PrefixLawful(c: Config, seed: map<string, Node>, run: seq<Event>, i: nat)
    requires Lawful(c, seed, run) && i <= |run|
    ensures Lawful(c, seed, run[..i])
  {
    hide Possible, After;
    if i < |run| {
      PrefixLawful(c, seed, run[..|run| - 1], i);
      assert run[..|run| - 1][..i] == run[..i];
    } else {
      assert run[..i] == run;
    }
  }
}
