/** What the portal stores, and the time stamps its decisions are read from. */
module Records {
  import opened Orders

  datatype Option<+T> = None | Some(value: T)

  // ---- Time ----

  const NANOS := 1_000_000_000
  const DAY := 86_400

  /** Zone suffix of an RFC 3339 text, in the order in which the suffixes compare as text. */
  datatype Zone = Plus(minutes: nat) | Minus(minutes: nat) | Zulu

  /** An RFC 3339 text with whole seconds: the wall-clock time it shows and its zone suffix. */
  datatype Stamp = Stamp(local: int, zone: Zone)

  function OffsetSeconds(z: Zone): int {
    match z
    case Plus(m) => 60 * m
    case Minus(m) => -60 * m
    case Zulu => 0
  }

  /** Seconds since the epoch of the moment a stamp denotes. */
  function Instant(t: Stamp): int {
    t.local - OffsetSeconds(t.zone)
  }

  /** The date the text starts with, as a day number: what `strings.HasPrefix(text, date)` tests. */
  function TextDate(t: Stamp): int {
    t.local / DAY
  }

  /** The date of the moment in UTC: what `datePart` returns. */
  function UtcDate(t: Stamp): int {
    Instant(t) / DAY
  }

  /** Text and moment name the same day. */
  predicate Aligned(t: Stamp) {
    TextDate(t) == UtcDate(t)
  }

  /** The portal prints clock readings (in nanoseconds) in UTC and drops the fraction of a second. */
  function Seconds(now: int): int {
    now / NANOS
  }

  function Printed(now: int): Stamp {
    Stamp(Seconds(now), Zulu)
  }

  /** Columns by which stamps compare as text. */
  function StampKey(t: Stamp): (k: Key)
    ensures |k| == 3
  {
    match t.zone
    case Plus(m) => [Num(t.local), Num(0), Num(m)]
    case Minus(m) => [Num(t.local), Num(1), Num(m)]
    case Zulu => [Num(t.local), Num(2), Num(0)]
  }

  predicate StampLess(a: Stamp, b: Stamp) {
    KeyLess(StampKey(a), StampKey(b))
  }

  /** The suffix itself: a sign, two digits of hours, a colon and two digits of minutes, or Z. */
  function SuffixText(z: Zone): string
    requires z.Zulu? || z.minutes < 6000
  {
    match z
    case Plus(m) => "+" + HoursAndMinutes(m)
    case Minus(m) => "-" + HoursAndMinutes(m)
    case Zulu => "Z"
  }

  function HoursAndMinutes(m: nat): string
    requires m < 6000
  {
    [DigitOf(m / 600), DigitOf(m / 60 % 10), ':', DigitOf(m % 60 / 10), DigitOf(m % 60 % 10)]
  }

  function DigitOf(d: nat): char
    requires d < 10
  {
    '0' + d as char
  }

  lemma DigitsCompare(a: nat, b: nat)
    requires a < 10 && b < 10
    ensures DigitOf(a) < DigitOf(b) <==> a < b
    ensures DigitOf(a) == DigitOf(b) <==> a == b
  {
  }

  lemma TextLessHead(c: char, x: string, d: char, y: string)
    ensures TextLess([c] + x, [d] + y) <==> if c == d then TextLess(x, y) else c < d
  {
    assert ([c] + x)[1..] == x && ([d] + y)[1..] == y;
  }

  predicate DigitsLess(a: nat, b: nat, c: nat, d: nat, e: nat, f: nat, g: nat, h: nat) {
    a < e || (a == e && (b < f || (b == f && (c < g || (c == g && d < h)))))
  }

  lemma FourDigitsCompare(a: nat, b: nat, c: nat, d: nat, e: nat, f: nat, g: nat, h: nat)
    requires a < 10 && b < 10 && c < 10 && d < 10 && e < 10 && f < 10 && g < 10 && h < 10
    ensures TextLess([DigitOf(a), DigitOf(b), ':', DigitOf(c), DigitOf(d)], [DigitOf(e), DigitOf(f), ':', DigitOf(g), DigitOf(h)])
      <==> DigitsLess(a, b, c, d, e, f, g, h)
  {
    hide DigitOf, TextLess;
    DigitsCompare(a, e);
    DigitsCompare(b, f);
    DigitsCompare(c, g);
    DigitsCompare(d, h);
    var (x, y) := ([DigitOf(a), DigitOf(b), ':', DigitOf(c), DigitOf(d)], [DigitOf(e), DigitOf(f), ':', DigitOf(g), DigitOf(h)]);
    HeadDecides(x, y);
    HeadDecides(x[1..], y[1..]);
    HeadDecides(x[2..], y[2..]);
    HeadDecides(x[3..], y[3..]);
    HeadDecides(x[4..], y[4..]);
    NothingLess();
    assert x[1..][1..] == x[2..] && x[2..][1..] == x[3..] && x[3..][1..] == x[4..] && x[4..][1..] == "";
    assert y[1..][1..] == y[2..] && y[2..][1..] == y[3..] && y[3..][1..] == y[4..] && y[4..][1..] == "";
  }

  lemma NothingLess()
    ensures !TextLess("", "")
  {
  }

  lemma HeadDecides(x: string, y: string)
    requires x != "" && y != ""
    ensures TextLess(x, y) <==> if x[0] == y[0] then TextLess(x[1..], y[1..]) else x[0] < y[0]
  {
  }

  lemma ClockDigits(m: nat, n: nat)
    requires m < 6000 && n < 6000
    ensures DigitsLess(m / 600, m / 60 % 10, m % 60 / 10, m % 60 % 10, n / 600, n / 60 % 10, n % 60 / 10, n % 60 % 10) <==> m < n
  {
    assert m == 600 * (m / 600) + 60 * (m / 60 % 10) + 10 * (m % 60 / 10) + m % 60 % 10 by {
      assert m / 60 == 10 * (m / 600) + m / 60 % 10;
    }
    assert n == 600 * (n / 600) + 60 * (n / 60 % 10) + 10 * (n % 60 / 10) + n % 60 % 10 by {
      assert n / 60 == 10 * (n / 600) + n / 60 % 10;
    }
  }

  lemma ClocksCompare(m: nat, n: nat)
    requires m < 6000 && n < 6000
    ensures TextLess(HoursAndMinutes(m), HoursAndMinutes(n)) <==> m < n
  {
    hide TextLess, DigitsLess, DigitOf;
    FourDigitsCompare(m / 600, m / 60 % 10, m % 60 / 10, m % 60 % 10, n / 600, n / 60 % 10, n % 60 / 10, n % 60 % 10);
    ClockDigits(m, n);
  }

  /** Stamps compare by the time they show, and then by their suffixes as texts: no matter which moment is
      the later. */
  lemma StampsCompareAsTexts(a: Stamp, b: Stamp)
    requires (a.zone.Zulu? || a.zone.minutes < 6000) && (b.zone.Zulu? || b.zone.minutes < 6000)
    ensures StampLess(a, b) <==> a.local < b.local || (a.local == b.local && TextLess(SuffixText(a.zone), SuffixText(b.zone)))
  {
    ZonesCompare(a.zone, b.zone);
    var (x, y) := (StampKey(a), StampKey(b));
    KeyLessStep(x[2], [], y[2], []);
    KeyLessStep(x[1], [x[2]], y[1], [y[2]]);
    KeyLessStep(x[0], [x[1]] + [x[2]], y[0], [y[1]] + [y[2]]);
    assert x == [x[0]] + ([x[1]] + [x[2]]) && y == [y[0]] + ([y[1]] + [y[2]]);
    assert [x[2]] + [] == [x[2]] && [y[2]] + [] == [y[2]];
  }

  lemma ZonesCompare(a: Zone, b: Zone)
    requires (a.Zulu? || a.minutes < 6000) && (b.Zulu? || b.minutes < 6000)
    ensures TextLess(SuffixText(a), SuffixText(b)) <==>
      match a
      case Plus(m) => !b.Plus? || m < b.minutes
      case Minus(m) => b.Zulu? || (b.Minus? && m < b.minutes)
      case Zulu => false
  {
    if !a.Zulu? && !b.Zulu? {
      ClocksCompare(a.minutes, b.minutes);
      TextLessHead(if a.Plus? then '+' else '-', HoursAndMinutes(a.minutes), if b.Plus? then '+' else '-', HoursAndMinutes(b.minutes));
    }
  }

  /** The shown time is that of the moment plus the offset; dates are days of 86400 seconds. */
  lemma StampsInSeconds(t: Stamp)
    ensures t.local == Instant(t) + (match t.zone case Plus(m) => m * 60 case Minus(m) => -(m * 60) case Zulu => 0)
    ensures TextDate(t) * 86_400 <= t.local < (TextDate(t) + 1) * 86_400
    ensures UtcDate(t) * 86_400 <= Instant(t) < (UtcDate(t) + 1) * 86_400
  {
  }

  // ---- Nodes and events ----

  datatype Node = Node(
    nodeId: string,
    displayName: string,
    operatorEmail: string,
    enabled: bool,
    fingerprint: string,
    publicKey: string,
    generation: int,
    registeredAt: Option<int>,
    lastSequence: int,
    lastHeartbeat: Option<Stamp>,
    lastPolicyVersion: string)

  datatype Challenge = Challenge(id: string, nodeId: string, issuedAt: int, expiresAt: int, usedAt: Option<int>)

  /** A stored event or piece of evidence: its unique reference, the node and time it is about, and
      what was observed. */
  datatype Observation<+X> = Observation(ref: string, nodeId: string, observedAt: Stamp, what: X)

  datatype Probe = Probe(
    regionId: string,
    up: bool,
    finalizedLag: Option<int>,
    chainLag: Option<int>,
    sourceHeight: Option<int>,
    peerHeight: Option<int>)

  datatype Check = Check(overallPassed: bool)

  datatype Review = Pending | Accepted | Rejected

  datatype GroupClaim = GroupClaim(operatorGroupId: string, source: string, review: Review)

  datatype VotingKey = VotingKey(currentEpoch: int, present: bool, validForEpoch: bool, source: string)

  datatype Placement = Placement(countryCode: string, asn: int, providerId: string, infrastructureId: string, source: string)

  datatype DomainClaim = DomainClaim(registrableDomain: string, source: string)

  datatype ControlClaim = ControlClaim(controlPlaneId: string, classification: string, source: string, review: Review)

  datatype Heartbeat = Heartbeat(nodeId: string, at: Stamp, sequence: int)

  datatype Telemetry = Telemetry(nodeId: string, at: Stamp, code: string)

  // ---- Derived daily records (clock stamps that nothing reads are not part of the model) ----

  /** The portal's reason texts; `NoReason` is the empty text. */
  datatype Reason =
    | NoReason
    | NoValidProbes | InsufficientProbeRegions | MissingFinalizedLagEvidence | MissingChainLagEvidence
    | InsufficientProbeEvidence | ProbeEvidenceFailed
    | HeartbeatStale | HeartbeatMissing
    | HardwareCheckMissing | HardwareCheckFailed
    | VotingKeyEvidenceMissing | VotingKeyNotPresent | VotingKeyInvalid
    | ObservationWindowIncomplete
    | SameOperatorGroup | SameRegistrableDomain | SameSharedControlPlane
    | NotQualified | QualifiedOnly | EligibleForReward

  datatype Summary = Summary(
    nodeId: string,
    date: int,
    policyVersion: string,
    finalizedLagMax: int,
    chainLagMax: int,
    valid: int,
    up: int,
    availabilityRatio: real,
    finalizedMeasurable: int,
    finalizedWithin: int,
    finalizedRatio: real,
    chainMeasurable: int,
    chainWithin: int,
    chainRatio: real,
    regions: int,
    availabilityPassed: bool,
    finalizedPassed: bool,
    chainPassed: bool,
    multiRegionPassed: bool,
    evidencePassed: bool,
    insufficient: Reason)

  datatype Decision = Decision(
    nodeId: string,
    date: int,
    policyVersion: string,
    probePassed: bool,
    heartbeatPassed: bool,
    hardwarePassed: bool,
    votingKeyPassed: bool,
    qualified: bool,
    failures: seq<Reason>,
    insufficient: Reason)

  datatype Base = Base(
    nodeId: string,
    date: int,
    policyVersion: string,
    availability: real,
    finalization: real,
    chainSync: real,
    votingKey: real,
    total: real)

  datatype Ranking = Ranking(
    nodeId: string,
    date: int,
    policyVersion: string,
    rank: int,
    base: Base,
    decentralization: real,
    totalScore: real,
    operatorGroupId: string)

  datatype Eligibility = Eligibility(
    nodeId: string,
    date: int,
    policyVersion: string,
    rank: int,
    operatorGroupId: string,
    eligible: bool,
    exclusion: Reason,
    excludedGroup: string,
    excludedDomain: string,
    excludedPlane: string,
    excludedClassification: string)

  datatype Allocation = Allocation(
    nodeId: string,
    date: int,
    policyVersion: string,
    rank: int,
    rankedNodes: int,
    nominalPool: real,
    participationRate: real,
    distributedPool: real,
    reservePool: real,
    bandLabel: string,
    bandShare: real,
    bandPool: real,
    bandEligible: int,
    reward: real,
    eligible: bool,
    exclusion: Reason)

  // ---- Alerts ----

  datatype Severity = Critical | Warning

  datatype AlertState = AlertState(nodeId: string, code: string, severity: Severity, lastSentAt: int, recipient: string)

  datatype Delivery = Delivery(nodeId: string, code: string, severity: Severity, recipient: string, occurredAt: Stamp, sentAt: int, sent: bool)

  datatype Operational = Operational(nodeId: string, code: string, at: int)

  // ---- Configuration ----

  datatype Policy = Policy(version: string, finalizedLagMax: int, chainLagMax: int, cpuProfileId: string, diskProfileId: string)

  datatype Config = Config(
    policy: Policy,
    nominalPool: real,
    clockSkew: int,            // seconds
    challengeTtl: int,         // nanoseconds
    staleAfter: int,           // nanoseconds
    failedAfter: int,          // nanoseconds
    fallbackRecipient: string)
}
