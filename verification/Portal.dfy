/** The portal as a state machine: every request handler, the alert scan and the restart as one step
    each over the store, the saved snapshot and the record of what was accepted and sent. */
module Portal {
  import opened Records
  import opened Texts
  import opened Tables
  import opened ProbeSummary
  import opened Qualification
  import opened AntiConcentration
  import opened PortalState
  import opened Pipeline
  import opened Snapshots

  /** A heartbeat that the portal accepted, with the generation it was accepted under, and whether it
      was acknowledged, that is, saved before the reply. */
  datatype Acceptance = Acceptance(nodeId: string, generation: int, sequence: int, acknowledged: bool)

  /** An enrollment that the portal accepted, and whether it was acknowledged. */
  datatype Enrollment = Enrollment(nodeId: string, challengeId: string, acknowledged: bool)

  /** A notification that the notifier really sent, at a time in nanoseconds. */
  datatype Sent = Sent(nodeId: string, code: string, at: int)

  /** The running portal: its store, the last successfully saved snapshot, and what it has done. */
  datatype Sys = Sys(mem: State, disk: Option<Snapshot>, accepted: seq<Acceptance>, enrolled: seq<Enrollment>, sent: seq<Sent>)

  /** Outcome of one notification attempt: whether the notifier sends, and whether the save that
      follows succeeds. */
  datatype Io = Io(sends: bool, saves: bool)

  /** What a step finds outside the portal: the clock, the scans' findings, the outcome of the i-th
      notification, and of the final save. */
  datatype Env = Env(now: nat, looks: ArtifactLooks, io: nat -> Io, saves: bool)

  const NO_LOOKS := ArtifactLooks(None, None, RankLooks([], [], [], []))

  datatype Error =
    | MissingField | UnknownNode | UnknownFingerprint | InvalidSignature | InvalidTimestamp
    | InvalidChallenge | ChallengeUsed | ChallengeExpired | InvalidPublicKey
    | GenerationMismatch | StaleSequence
    | PolicyMismatch | InvalidSchema | CpuProfileMismatch | DiskProfileMismatch | InvalidEventType | InvalidOverall
    | InvalidLag | InvalidPayload | InvalidSource | InvalidReviewState | InvalidClassification | InvalidWarningCode
    | Duplicate | PersistFailed

  datatype Reply = Done | Refused(error: Error)

  /** A number field of a decoded payload. */
  datatype Field = Absent | Malformed | Is(n: int)

  /** A time field of a decoded payload. */
  datatype TimeText = Empty | Unparsable | At(t: Stamp)

  ghost function Persist(sys: Sys, saves: bool): Sys {
    if saves then sys.(disk := Some(SnapshotOf(sys.mem))) else sys
  }

  /** `validateTimestamp`: within the allowed clock skew of now. */
  predicate TimestampOk(c: Config, t: TimeText, now: nat) {
    t.At? && now - c.clockSkew * NANOS <= Instant(t.t) * NANOS <= now + c.clockSkew * NANOS
  }

  // ---- Alerts ----

  const HEARTBEAT_STALE := "heartbeat_stale"
  const HEARTBEAT_FAILED := "heartbeat_failed"
  const NODE_OUTAGE := "node_outage"
  const FINALIZED_LAG := "finalized_lag"
  const DELIVERY_FAILED := "notification_delivery_failed"
  const WARNING_CODES := {"portal_unreachable", "local_check_execution_failed", "voting_key_expiry_risk", "certificate_expiry_risk"}

  function SeverityOf(code: string): Severity {
    if code == HEARTBEAT_FAILED || code == NODE_OUTAGE || code == FINALIZED_LAG then Critical else Warning
  }

  /** In seconds. */
  function Cooldown(severity: Severity): int {
    if severity == Critical then 15 * 60 else 24 * 3600
  }

  predicate CoolingDown(s: State, nodeId: string, code: string, now: int) {
    var key := (nodeId, code, SeverityOf(code));
    key in s.alertStates && now < (s.alertStates[key].lastSentAt + Cooldown(SeverityOf(code))) * NANOS
  }

  function RecipientOf(c: Config, s: State, nodeId: string): string {
    if nodeId in s.nodes && !Blank(s.nodes[nodeId].operatorEmail) then Trim(s.nodes[nodeId].operatorEmail) else Trim(c.fallbackRecipient)
  }

  function DeliveryOf(nodeId: string, code: string, recipient: string, occurredAt: Stamp, now: int, sent: bool): Delivery {
    Delivery(nodeId, code, SeverityOf(code), recipient, occurredAt, Seconds(now), sent)
  }

  function WithFailure(s: State, nodeId: string, code: string, recipient: string, occurredAt: Stamp, now: int): State {
    s.(deliveries := s.deliveries + [DeliveryOf(nodeId, code, recipient, occurredAt, now, false)],
      operational := s.operational + [Operational(nodeId, DELIVERY_FAILED, Seconds(now))])
  }

  function WithSuccess(s: State, nodeId: string, code: string, recipient: string, occurredAt: Stamp, now: int): State {
    s.(alertStates := s.alertStates[(nodeId, code, SeverityOf(code)) := AlertState(nodeId, code, SeverityOf(code), Seconds(now), recipient)],
      deliveries := s.deliveries + [DeliveryOf(nodeId, code, recipient, occurredAt, now, true)])
  }

  /** `maybeNotifyAlert`; the flag is false only when a sent notification could not be saved. */
  ghost function Notify(c: Config, sys: Sys, nodeId: string, code: string, occurredAt: Stamp, now: int, io: Io): (Sys, bool) {
    var recipient := RecipientOf(c, sys.mem, nodeId);
    if CoolingDown(sys.mem, nodeId, code, now) then (sys, true)
    else if recipient == "" || !io.sends then
      (Persist(sys.(mem := WithFailure(sys.mem, nodeId, code, recipient, occurredAt, now)), io.saves), true)
    else
      (Persist(sys.(mem := WithSuccess(sys.mem, nodeId, code, recipient, occurredAt, now),
        sent := sys.sent + [Sent(nodeId, code, now)]), io.saves), io.saves)
  }

  // ---- Qualification artifacts ----

  function ReadingsOf(s: State, nodeId: string, date: int, now: int, looks: ArtifactLooks): Readings {
    var anchor := Anchor(date, now);
    Readings(
      CountBeats(s.heartbeats, nodeId, anchor, HEALTHY_WINDOW),
      CountBeats(s.heartbeats, nodeId, anchor, FAILED_WINDOW),
      looks.check, looks.votingKey,
      if nodeId in s.nodes then s.nodes[nodeId].registeredAt else None,
      anchor)
  }

  /** Summary, decision and base record of a node and date, stored before the ranking is rebuilt. */
  ghost function GradeStep(c: Config, s: State, nodeId: string, date: int, now: int, looks: ArtifactLooks): Derived {
    var summary := SummaryOf(c.policy, s.probes, nodeId, date);
    Regraded(s.derived, (nodeId, date), summary, DecisionOf(summary, ReadingsOf(s, nodeId, date, now, looks)))
  }

  /** Only a qualified node has a base record. */
  function Regraded(v: Derived, key: NodeDate, summary: Summary, decision: Decision): Derived {
    v.(summaries := v.summaries[key := summary],
      decisions := v.decisions[key := decision],
      bases := if decision.qualified then v.bases[key := BaseOf(summary, decision)] else v.bases - {key})
  }

  ghost function ArtifactStep(c: Config, s: State, nodeId: string, date: int, now: int, looks: ArtifactLooks): Derived {
    RankingStep(c.nominalPool, GradeStep(c, s, nodeId, date, now, looks), RegistrationsOf(s.nodes), date, looks.ranks)
  }

  /** The alerts about an unavailable node and about its finalization lag. */
  ghost function SummaryAlerts(c: Config, sys: Sys, summary: Summary, env: Env): Sys {
    var first :=
      if summary.valid > 0 && !summary.availabilityPassed
      then Notify(c, sys, summary.nodeId, NODE_OUTAGE, Printed(env.now), env.now, env.io(0)).0 else sys;
    if summary.finalizedMeasurable > 0 && !summary.finalizedPassed
    then Notify(c, first, summary.nodeId, FINALIZED_LAG, Printed(env.now), env.now, env.io(1)).0 else first
  }

  ghost function RebuildRewards(c: Config, s: State, date: int, looks: seq<RewardLook>): State {
    s.(derived := EligibilityStep(c.nominalPool, s.derived, date, RankingsOn(s.derived, date), looks))
  }

  ghost function RebuildRanking(c: Config, s: State, date: int, looks: RankLooks): State {
    s.(derived := RankingStep(c.nominalPool, s.derived, RegistrationsOf(s.nodes), date, looks))
  }

  // ---- Enrollment ----

  function NewChallenge(c: Config, nodeId: string, now: nat): Challenge {
    Challenge(ChallengeId(nodeId, now), nodeId, Seconds(now), Seconds(now + c.challengeTtl), None)
  }

  function IssueError(s: State, nodeId: string): Option<Error> {
    if nodeId == "" then Some(MissingField) else if nodeId !in s.nodes then Some(UnknownNode) else None
  }

  function WithChallenge(c: Config, s: State, nodeId: string, now: nat): State {
    var challenge := NewChallenge(c, nodeId, now);
    s.(challenges := s.challenges[challenge.id := challenge])
  }

  /** `fingerprint` is the digest of the public key if that is well formed, `signed` whether the
      signature verifies under it. */
  datatype EnrollRequest = EnrollRequest(nodeId: string, challengeId: string, publicKey: string, signature: string, fingerprint: Option<string>, signed: bool)

  function EnrollError(s: State, r: EnrollRequest, now: nat): Option<Error> {
    if r.nodeId == "" || r.challengeId == "" || r.publicKey == "" || r.signature == "" then Some(MissingField)
    else if r.nodeId !in s.nodes then Some(UnknownNode)
    else if r.challengeId !in s.challenges then Some(InvalidChallenge)
    else if s.challenges[r.challengeId].nodeId != r.nodeId then Some(InvalidChallenge)
    else if s.challenges[r.challengeId].usedAt.Some? then Some(ChallengeUsed)
    else if now >= s.challenges[r.challengeId].expiresAt * NANOS then Some(ChallengeExpired)
    else if r.fingerprint.None? then Some(InvalidPublicKey)
    else if !r.signed then Some(InvalidSignature)
    else None
  }

  function Enrolled(c: Config, node: Node, fingerprint: string, publicKey: string, now: nat): Node {
    node.(
      fingerprint := fingerprint,
      publicKey := publicKey,
      generation := node.generation + 1,
      registeredAt := if node.registeredAt.None? then Some(Seconds(now)) else node.registeredAt,
      lastPolicyVersion := c.policy.version,
      lastSequence := 0)
  }

  function WithEnrollment(c: Config, s: State, r: EnrollRequest, now: nat): State
    requires EnrollError(s, r, now).None?
  {
    s.(nodes := s.nodes[r.nodeId := Enrolled(c, s.nodes[r.nodeId], r.fingerprint.value, r.publicKey, now)],
      challenges := s.challenges[r.challengeId := s.challenges[r.challengeId].(usedAt := Some(Seconds(now)))])
  }

  // ---- Heartbeats ----

  datatype HeartbeatRequest = HeartbeatRequest(nodeId: string, fingerprint: string, at: TimeText, sequence: int, generation: int, signed: bool)

  function HeartbeatError(c: Config, s: State, r: HeartbeatRequest, now: nat): Option<Error> {
    if r.nodeId !in s.nodes then Some(UnknownNode)
    else
      var node := s.nodes[r.nodeId];
      if node.publicKey == "" || r.fingerprint != node.fingerprint then Some(UnknownFingerprint)
      else if r.generation != node.generation then Some(GenerationMismatch)
      else if !TimestampOk(c, r.at, now) then Some(InvalidTimestamp)
      else if !r.signed then Some(InvalidSignature)
      else if r.sequence <= node.lastSequence then Some(StaleSequence)
      else None
  }

  function WithHeartbeat(c: Config, s: State, r: HeartbeatRequest): State
    requires r.nodeId in s.nodes && r.at.At?
  {
    s.(nodes := s.nodes[r.nodeId := s.nodes[r.nodeId].(
        lastSequence := r.sequence, lastHeartbeat := Some(r.at.t), lastPolicyVersion := c.policy.version)],
      heartbeats := s.heartbeats + [Heartbeat(r.nodeId, r.at.t, r.sequence)])
  }

  // ---- Signed map payloads: checks and telemetry ----

  function AuthError(s: State, nodeId: string, fingerprint: string, signed: bool): Option<Error> {
    if nodeId !in s.nodes then Some(UnknownNode)
    else if s.nodes[nodeId].publicKey == "" || fingerprint != s.nodes[nodeId].fingerprint then Some(UnknownFingerprint)
    else if !signed then Some(InvalidSignature)
    else None
  }

  datatype CheckRequest = CheckRequest(
    nodeId: string, fingerprint: string, signed: bool, policyVersion: string, schemaVersion: string,
    cpuProfileId: string, diskProfileId: string, eventId: string, eventType: string, checkedAt: TimeText,
    subChecks: SubChecks, overall: Option<bool>)

  datatype SubChecks = SubChecks(
    cpu: Option<bool>, disk: Option<bool>, ram: Option<bool>, storageSize: Option<bool>, ssd: Option<bool>, cpuLoad: Option<bool>)

  predicate AllPresent(k: SubChecks) {
    k.cpu.Some? && k.disk.Some? && k.ram.Some? && k.storageSize.Some? && k.ssd.Some? && k.cpuLoad.Some?
  }

  predicate AllPassed(k: SubChecks)
    requires AllPresent(k)
  {
    k.cpu.value && k.disk.value && k.ram.value && k.storageSize.value && k.ssd.value && k.cpuLoad.value
  }

  function CheckError(c: Config, s: State, r: CheckRequest, now: nat): Option<Error> {
    var auth := AuthError(s, r.nodeId, r.fingerprint, r.signed);
    if auth.Some? then auth
    else if r.policyVersion != c.policy.version then Some(PolicyMismatch)
    else if r.schemaVersion != "1" then Some(InvalidSchema)
    else if r.cpuProfileId != c.policy.cpuProfileId then Some(CpuProfileMismatch)
    else if r.diskProfileId != c.policy.diskProfileId then Some(DiskProfileMismatch)
    else if r.eventId == "" then Some(MissingField)
    else if r.eventType !in {"registration", "voting_key_renewal", "recheck"} then Some(InvalidEventType)
    else if !TimestampOk(c, r.checkedAt, now) then Some(InvalidTimestamp)
    else if !AllPresent(r.subChecks) || r.overall.None? then Some(MissingField)
    else if r.overall.value != AllPassed(r.subChecks) then Some(InvalidOverall)
    else if r.eventId in s.checks then Some(Duplicate)
    else None
  }

  function WithCheck(s: State, r: CheckRequest): State
    requires r.checkedAt.At? && r.overall.Some?
  {
    s.(checks := s.checks[r.eventId := Observation(r.eventId, r.nodeId, r.checkedAt.t, Check(r.overall.value))])
  }

  datatype TelemetryRequest = TelemetryRequest(nodeId: string, fingerprint: string, signed: bool, policyVersion: string, at: TimeText, flags: Option<seq<string>>)

  function TelemetryError(c: Config, s: State, r: TelemetryRequest, now: nat): Option<Error> {
    var auth := AuthError(s, r.nodeId, r.fingerprint, r.signed);
    if auth.Some? then auth
    else if r.policyVersion != c.policy.version then Some(PolicyMismatch)
    else if !TimestampOk(c, r.at, now) then Some(InvalidTimestamp)
    else if r.flags.None? || r.flags.value == [] then Some(MissingField)
    else None
  }

  function WithTelemetry(s: State, t: Telemetry): State {
    s.(telemetry := s.telemetry + [t], latestTelemetry := s.latestTelemetry[TelemetryKey(t) := t])
  }

  /** The first `n` flags in turn; an unsupported flag or a failed save stops the request and keeps
      what was already stored. */
  ghost function FlagsStep(c: Config, sys: Sys, nodeId: string, at: Stamp, flags: seq<string>, n: nat, env: Env): (Sys, Option<Error>)
    requires n <= |flags|
  {
    if n == 0 then (sys, None)
    else
      var (before, error) := FlagsStep(c, sys, nodeId, at, flags, n - 1, env);
      var flag := flags[n - 1];
      if error.Some? then (before, error)
      else if flag !in WARNING_CODES then (before, Some(InvalidWarningCode))
      else
        var noted := before.(mem := WithTelemetry(before.mem, Telemetry(nodeId, at, flag)));
        var (after, saved) := Notify(c, noted, nodeId, flag, at, env.now, env.io(n - 1));
        (after, if saved then None else Some(PersistFailed))
  }

  // ---- Probes ----

  datatype ProbeRequest = ProbeRequest(
    schemaVersion: string, probeId: string, nodeId: string, regionId: string, observedAt: TimeText, endpoint: string,
    up: Option<bool>, window: Field, finalizedLag: Field, chainLag: Field, sourceHeight: Field, peerHeight: Field, httpStatus: Field)

  predicate NotNegative(f: Field) {
    f == Absent || (f.Is? && f.n >= 0)
  }

  function Number(f: Field): Option<int> {
    if f.Is? then Some(f.n) else None
  }

  function ProbeOf(r: ProbeRequest): Probe
    requires r.up.Some?
  {
    Probe(r.regionId, r.up.value, Number(r.finalizedLag), Number(r.chainLag), Number(r.sourceHeight), Number(r.peerHeight))
  }

  function ProbeError(c: Config, s: State, r: ProbeRequest, now: nat): Option<Error> {
    if r.schemaVersion != "1" then Some(InvalidSchema)
    else if r.probeId == "" || r.nodeId == "" || r.regionId == "" || r.observedAt == Empty || r.endpoint == "" then Some(MissingField)
    else if r.nodeId !in s.nodes then Some(UnknownNode)
    else if !TimestampOk(c, r.observedAt, now) then Some(InvalidTimestamp)
    else if r.up.None? then Some(MissingField)
    else if !r.window.Is? || r.window.n <= 0 then Some(MissingField)
    else if !NotNegative(r.finalizedLag) || !NotNegative(r.chainLag) || !NotNegative(r.sourceHeight) || !NotNegative(r.peerHeight)
    then Some(InvalidLag)
    else if !NotNegative(r.httpStatus) then Some(InvalidPayload)
    else if r.up.value && (!r.finalizedLag.Is? || !r.chainLag.Is? || !r.sourceHeight.Is? || !r.peerHeight.Is?) then Some(MissingField)
    else if r.probeId in s.probes then Some(Duplicate)
    else None
  }

  function WithProbe(s: State, r: ProbeRequest): State
    requires r.observedAt.At? && r.up.Some?
  {
    s.(probes := s.probes[r.probeId := Observation(r.probeId, r.nodeId, r.observedAt.t, ProbeOf(r))])
  }

  // ---- Evidence ----

  /** Common fields of an evidence request. */
  datatype Header = Header(nodeId: string, ref: string, observedAt: TimeText, source: string)

  datatype EvidenceRequest =
    | VotingKeyRequest(header: Header, currentEpoch: Field, present: Option<bool>, valid: Option<bool>)
    | GroupRequest(header: Header, operatorGroupId: string, reviewState: string)
    | PlacementRequest(header: Header, countryCode: string, providerId: string, infrastructureId: string, asn: Field)
    | DomainRequest(header: Header, registrableDomain: string)
    | PlaneRequest(header: Header, controlPlaneId: string, classification: string, reviewState: string)

  const SOURCES := {"manual_review", "probe_derived", "operator_submitted"}
  const CLASSIFICATIONS := {"managed_provider", "operational_contractor", "shared_certificate_admin", "material_overlap"}

  /** A blank review state counts as accepted; an unknown one is refused. */
  function ReviewOf(text: string): Option<Review> {
    var state := Lower(Trim(text));
    if state == "" || state == "accepted" then Some(Review.Accepted)
    else if state == "pending" then Some(Pending)
    else if state == "rejected" then Some(Rejected)
    else None
  }

  predicate HeaderMissing(h: Header) {
    h.nodeId == "" || h.ref == "" || h.observedAt == Empty || h.source == ""
  }

  function FieldsError(r: EvidenceRequest): Option<Error> {
    match r
    case VotingKeyRequest(h, _, _, _) => if HeaderMissing(h) then Some(MissingField) else None
    case GroupRequest(h, group, review) =>
      if HeaderMissing(h.(source := Trim(h.source))) || group == "" then Some(MissingField)
      else if Trim(h.source) !in SOURCES then Some(InvalidSource)
      else if ReviewOf(review).None? then Some(InvalidReviewState)
      else None
    case PlacementRequest(h, country, provider, _, _) =>
      if HeaderMissing(h) || Blank(country) || Blank(provider) then Some(MissingField) else None
    case DomainRequest(h, domain) => if HeaderMissing(h) || Blank(domain) then Some(MissingField) else None
    case PlaneRequest(h, plane, classification, review) =>
      if HeaderMissing(h.(source := Trim(h.source))) || Blank(plane) || Blank(classification) then Some(MissingField)
      else if Trim(h.source) !in SOURCES then Some(InvalidSource)
      else if ReviewOf(review).None? then Some(InvalidReviewState)
      else if Trim(classification) !in CLASSIFICATIONS then Some(InvalidClassification)
      else None
  }

  /** Checks that follow the time check. */
  function NumbersError(r: EvidenceRequest): Option<Error> {
    match r
    case VotingKeyRequest(_, epoch, present, valid) =>
      if !epoch.Is? || epoch.n < 0 || present.None? || valid.None? then Some(MissingField) else None
    case PlacementRequest(_, _, _, _, asn) => if !asn.Is? || asn.n <= 0 then Some(MissingField) else None
    case _ => None
  }

  predicate RefTaken(e: Evidence, r: EvidenceRequest) {
    match r
    case VotingKeyRequest(h, _, _, _) => h.ref in e.votingKeys
    case GroupRequest(h, _, _) => h.ref in e.groups
    case PlacementRequest(h, _, _, _, _) => h.ref in e.placements
    case DomainRequest(h, _) => h.ref in e.domains
    case PlaneRequest(h, _, _, _) => h.ref in e.planes
  }

  function EvidenceError(c: Config, s: State, r: EvidenceRequest, now: nat): Option<Error> {
    if FieldsError(r).Some? then FieldsError(r)
    else if r.header.nodeId !in s.nodes then Some(UnknownNode)
    else if !TimestampOk(c, r.header.observedAt, now) then Some(InvalidTimestamp)
    else if NumbersError(r).Some? then NumbersError(r)
    else if RefTaken(s.evidence, r) then Some(Duplicate)
    else None
  }

  function Observe<X>(h: Header, what: X): Observation<X>
    requires h.observedAt.At?
  {
    Observation(h.ref, h.nodeId, h.observedAt.t, what)
  }

  /** The evidence tables with the request's record stored, its texts normalized. */
  function WithEvidence(e: Evidence, r: EvidenceRequest): Evidence
    requires FieldsError(r).None? && NumbersError(r).None? && r.header.observedAt.At?
  {
    var h := r.header;
    match r
    case VotingKeyRequest(_, epoch, present, valid) =>
      e.(votingKeys := e.votingKeys[h.ref := Observe(h, VotingKey(epoch.n, present.value, valid.value, h.source))])
    case GroupRequest(_, group, review) =>
      e.(groups := e.groups[h.ref := Observe(h, GroupClaim(group, Trim(h.source), ReviewOf(review).value))])
    case PlacementRequest(_, country, provider, infrastructure, asn) =>
      e.(placements := e.placements[h.ref := Observe(h, Placement(Upper(Trim(country)), asn.n, Trim(provider), Trim(infrastructure), h.source))])
    case DomainRequest(_, domain) =>
      e.(domains := e.domains[h.ref := Observe(h, DomainClaim(Lower(Trim(domain)), h.source))])
    case PlaneRequest(_, plane, classification, review) =>
      e.(planes := e.planes[h.ref := Observe(h, ControlClaim(Trim(plane), Trim(classification), Trim(h.source), ReviewOf(review).value))])
  }

  // ---- The alert scan ----

  function HeartbeatAlert(c: Config, node: Node, now: nat): Option<string> {
    if node.publicKey == "" || node.lastHeartbeat.None? then None
    else
      var age := now - Instant(node.lastHeartbeat.value) * NANOS;
      if age >= c.failedAfter then Some(HEARTBEAT_FAILED)
      else if age >= c.staleAfter then Some(HEARTBEAT_STALE)
      else None
  }

  /** The first `n` nodes in turn. */
  ghost function ScanStep(c: Config, sys: Sys, nodes: seq<Node>, n: nat, env: Env): Sys
    requires n <= |nodes|
  {
    if n == 0 then sys
    else
      var before := ScanStep(c, sys, nodes, n - 1, env);
      var alert := HeartbeatAlert(c, nodes[n - 1], env.now);
      if alert.None? then before
      else Notify(c, before, nodes[n - 1].nodeId, alert.value, Printed(env.now), env.now, env.io(n - 1)).0
  }

  ghost function AlertScan(c: Config, sys: Sys, env: Env): Sys {
    var nodes := Sorting(sys.mem.nodes, NodeOrder);
    ScanStep(c, sys, nodes, |nodes|, env)
  }

  // ---- Restart ----

  /** Start from the configured nodes and the last saved snapshot; a snapshot that does not fit stops
      the start and leaves the portal as it was. */
  ghost function RestartStep(seed: map<string, Node>, sys: Sys): Sys {
    if sys.disk.None? then sys.(mem := Fresh(seed))
    else if Loadable(seed, sys.disk.value) then sys.(mem := Loaded(seed, sys.disk.value))
    else sys
  }

  // ---- All steps ----

  datatype Request =
    | Issue(nodeId: string)
    | Enroll(enroll: EnrollRequest)
    | Beat(beat: HeartbeatRequest)
    | SendCheck(check: CheckRequest)
    | SendTelemetry(telemetry: TelemetryRequest)
    | SendProbe(probe: ProbeRequest)
    | SendEvidence(evidence: EvidenceRequest)
    | Scan
    | Restart

  function RequestError(c: Config, s: State, q: Request, now: nat): Option<Error> {
    match q
    case Issue(nodeId) => IssueError(s, nodeId)
    case Enroll(r) => EnrollError(s, r, now)
    case Beat(r) => HeartbeatError(c, s, r, now)
    case SendCheck(r) => CheckError(c, s, r, now)
    case SendTelemetry(r) => TelemetryError(c, s, r, now)
    case SendProbe(r) => ProbeError(c, s, r, now)
    case SendEvidence(r) => EvidenceError(c, s, r, now)
    case Scan => None
    case Restart => None
  }

  /** The store with the event of an accepted request in it. */
  function Noted(c: Config, s: State, q: Request, now: nat): State
    requires RequestError(c, s, q, now).None?
  {
    match q
    case Issue(nodeId) => WithChallenge(c, s, nodeId, now)
    case Enroll(r) => WithEnrollment(c, s, r, now)
    case Beat(r) => WithHeartbeat(c, s, r)
    case SendCheck(r) => WithCheck(s, r)
    case SendProbe(r) => WithProbe(s, r)
    case SendEvidence(r) => s.(evidence := WithEvidence(s.evidence, r))
    case _ => s
  }

  // ---- Rebuilding ----

  datatype Rebuild = Nothing | Artifacts(nodeId: string, date: int) | WholeRanking(date: int) | OnlyRewards(date: int)

  function DateOf(t: TimeText): int {
    if t.At? then UtcDate(t.t) else 0
  }

  /** Which rebuild an accepted request triggers.  Of the evidence, a voting key re-grades its node, a
      placement re-ranks the date, and the others only rebuild the rewards of the date. */
  function RebuildOf(q: Request): Rebuild {
    match q
    case Beat(r) => Artifacts(r.nodeId, DateOf(r.at))
    case SendCheck(r) => Artifacts(r.nodeId, DateOf(r.checkedAt))
    case SendProbe(r) => Artifacts(r.nodeId, DateOf(r.observedAt))
    case SendEvidence(r) =>
      (match r
       case VotingKeyRequest(h, _, _, _) => Artifacts(h.nodeId, DateOf(h.observedAt))
       case PlacementRequest(h, _, _, _, _) => WholeRanking(DateOf(h.observedAt))
       case _ => OnlyRewards(DateOf(r.header.observedAt)))
    case _ => Nothing
  }

  ghost function Rebuilt(c: Config, s: State, b: Rebuild, env: Env): State {
    match b
    case Nothing => s
    case Artifacts(nodeId, date) => s.(derived := ArtifactStep(c, s, nodeId, date, env.now, env.looks))
    case WholeRanking(date) => RebuildRanking(c, s, date, env.looks.ranks)
    case OnlyRewards(date) => RebuildRewards(c, s, date, env.looks.ranks.rewards)
  }

  /** The looks in the environment are what the scans of the rebuild find in the store. */
  ghost predicate LooksFound(c: Config, s: State, b: Rebuild, env: Env) {
    match b
    case Nothing => true
    case Artifacts(nodeId, date) =>
      && IsLatest(s.checks, nodeId, date, env.looks.check)
      && IsLatest(s.evidence.votingKeys, nodeId, date, env.looks.votingKey)
      && RankLooksFound(s.evidence, OnDate(GradeStep(c, s, nodeId, date, env.now, env.looks).bases, date),
           RegistrationsOf(s.nodes), date, env.looks.ranks)
    case WholeRanking(date) =>
      RankLooksFound(s.evidence, OnDate(s.derived.bases, date), RegistrationsOf(s.nodes), date, env.looks.ranks)
    case OnlyRewards(date) =>
      RewardsFound(s.evidence, RankingsOn(s.derived, date), date, env.looks.ranks.rewards)
  }

  // ---- One step ----

  /** The store after the event of an accepted request is noted and its rebuild is done. */
  ghost function Settled(c: Config, s: State, q: Request, env: Env): State
    requires RequestError(c, s, q, env.now).None?
  {
    Rebuilt(c, Noted(c, s, q, env.now), RebuildOf(q), env)
  }

  /** The alerts that follow: telemetry may be cut short by an unsupported flag or a failed save. */
  ghost function Alerts(c: Config, sys: Sys, q: Request, env: Env): (Sys, Option<Error>) {
    if q.SendTelemetry? && q.telemetry.at.At? && q.telemetry.flags.Some? then
      FlagsStep(c, sys, q.telemetry.nodeId, q.telemetry.at.t, q.telemetry.flags.value, |q.telemetry.flags.value|, env)
    else if q.Scan? then (AlertScan(c, sys, env), None)
    else
      match RebuildOf(q)
      case Artifacts(nodeId, date) => (SummaryAlerts(c, sys, SummaryOf(c.policy, sys.mem.probes, nodeId, date), env), None)
      case _ => (sys, None)
  }

  /** A request that is not refused is noted and rebuilt, alerts follow, and the store is saved.  The
      alert scan saves only through its alerts. */
  ghost function Handle(c: Config, seed: map<string, Node>, sys: Sys, q: Request, env: Env): (Sys, Reply) {
    var error := RequestError(c, sys.mem, q, env.now);
    if error.Some? then (sys, Refused(error.value))
    else if q.Restart? then (RestartStep(seed, sys), Done)
    else
      var (after, failed) := Alerts(c, sys.(mem := Settled(c, sys.mem, q, env)), q, env);
      if failed.Some? then (after, Refused(failed.value))
      else if q.Scan? then (after, Done)
      else (Persist(after, env.saves), if env.saves then Done else Refused(PersistFailed))
  }

  /** The record of what was accepted. */
  ghost function Logged(after: Sys, q: Request, reply: Reply): Sys {
    match q
    case Beat(r) => after.(accepted := after.accepted + [Acceptance(r.nodeId, r.generation, r.sequence, reply.Done?)])
    case Enroll(r) => after.(enrolled := after.enrolled + [Enrollment(r.nodeId, r.challengeId, reply.Done?)])
    case _ => after
  }

  ghost function Step(c: Config, seed: map<string, Node>, sys: Sys, q: Request, env: Env): Sys {
    var (after, reply) := Handle(c, seed, sys, q, env);
    if RequestError(c, sys.mem, q, env.now).Some? then after else Logged(after, q, reply)
  }

  ghost function Start(seed: map<string, Node>): Sys {
    Sys(Fresh(seed), None, [], [], [])
  }

  // ---- Runs ----

  datatype Event = Event(q: Request, env: Env)

  /** The looks in the environment are what the scans of the step find in the store. */
  ghost predicate Possible(c: Config, sys: Sys, e: Event) {
    RequestError(c, sys.mem, e.q, e.env.now).None? ==>
      LooksFound(c, Noted(c, sys.mem, e.q, e.env.now), RebuildOf(e.q), e.env)
  }

  /** The portal after a run of events from its first start. */
  ghost function After(c: Config, seed: map<string, Node>, run: seq<Event>): Sys {
    if run == [] then Start(seed)
    else Step(c, seed, After(c, seed, run[..|run| - 1]), run[|run| - 1].q, run[|run| - 1].env)
  }

  ghost predicate Lawful(c: Config, seed: map<string, Node>, run: seq<Event>) {
    run != [] ==> Lawful(c, seed, run[..|run| - 1]) && Possible(c, After(c, seed, run[..|run| - 1]), run[|run| - 1])
  }
}
