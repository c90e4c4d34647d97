/** The portal's store as a value: its tables, logs and the keys and sort columns of each table. */
module PortalState {
  import opened Orders
  import opened Records
  import opened Tables
  import opened RankingRules

  datatype Evidence = Evidence(
    groups: map<string, Observation<GroupClaim>>,
    votingKeys: map<string, Observation<VotingKey>>,
    placements: map<string, Observation<Placement>>,
    domains: map<string, Observation<DomainClaim>>,
    planes: map<string, Observation<ControlClaim>>)

  datatype Derived = Derived(
    summaries: map<NodeDate, Summary>,
    decisions: map<NodeDate, Decision>,
    bases: map<NodeDate, Base>,
    rankings: map<NodeDate, Ranking>,
    eligibility: map<NodeDate, Eligibility>,
    allocations: map<NodeDate, Allocation>)

  datatype State = State(
    nodes: map<string, Node>,
    challenges: map<string, Challenge>,
    checks: map<string, Observation<Check>>,
    heartbeats: seq<Heartbeat>,
    telemetry: seq<Telemetry>,
    latestTelemetry: map<(string, string), Telemetry>,
    probes: map<string, Observation<Probe>>,
    evidence: Evidence,
    derived: Derived,
    alertStates: map<(string, string, Severity), AlertState>,
    deliveries: seq<Delivery>,
    operational: seq<Operational>)

  // ---- Table keys ----

  function NodeKey(n: Node): string { n.nodeId }
  function ChallengeKey(c: Challenge): string { c.id }
  function RefKey<X>(e: Observation<X>): string { e.ref }
  function TelemetryKey(t: Telemetry): (string, string) { (t.nodeId, t.code) }
  function SummaryKey(r: Summary): NodeDate { (r.nodeId, r.date) }
  function DecisionKey(r: Decision): NodeDate { (r.nodeId, r.date) }
  function BaseKey(r: Base): NodeDate { (r.nodeId, r.date) }
  function RankingKey(r: Ranking): NodeDate { (r.nodeId, r.date) }
  function EligibilityKey(r: Eligibility): NodeDate { (r.nodeId, r.date) }
  function AllocationKey(r: Allocation): NodeDate { (r.nodeId, r.date) }
  function AlertKeyOf(a: AlertState): (string, string, Severity) { (a.nodeId, a.code, a.severity) }

  // ---- Sort columns ----

  function NodeOrder(n: Node): Key { [Text(n.nodeId)] }
  function ChallengeOrder(c: Challenge): Key { [Text(c.nodeId), Text(c.id)] }
  function RefOrder<X>(e: Observation<X>): Key { [Text(e.ref)] }
  function TelemetryOrder(t: Telemetry): Key { [Text(t.nodeId), Text(t.code)] }
  function SummaryOrder(r: Summary): Key { [Num(r.date), Text(r.nodeId)] }
  function DecisionOrder(r: Decision): Key { [Num(r.date), Text(r.nodeId)] }
  function BaseOrder(r: Base): Key { [Num(r.date), Text(r.nodeId)] }
  function RankingOrder(r: Ranking): Key { [Num(r.date), Num(r.rank), Text(r.nodeId)] }
  function EligibilityOrder(r: Eligibility): Key { [Num(r.date), Num(r.rank), Text(r.nodeId)] }
  function AllocationOrder(r: Allocation): Key { [Num(r.date), Num(r.rank), Text(r.nodeId)] }
  function AlertOrder(a: AlertState): Key {
    [Text(a.nodeId), Text(a.code), Num(if a.severity == Critical then 0 else 1)]
  }
  function HeartbeatOrder(b: Heartbeat): Key { StampKey(b.at) + [Text(b.nodeId), Num(b.sequence)] }

  /** Sort columns determine the table key, so every listing has one sorted arrangement. */
  lemma SortColumnsSeparate()
    ensures forall a: Node, b: Node :: NodeOrder(a) == NodeOrder(b) ==> NodeKey(a) == NodeKey(b)
    ensures forall a: Challenge, b: Challenge :: ChallengeOrder(a) == ChallengeOrder(b) ==> ChallengeKey(a) == ChallengeKey(b)
    ensures forall a: Telemetry, b: Telemetry :: TelemetryOrder(a) == TelemetryOrder(b) ==> TelemetryKey(a) == TelemetryKey(b)
    ensures forall a: AlertState, b: AlertState :: AlertOrder(a) == AlertOrder(b) ==> AlertKeyOf(a) == AlertKeyOf(b)
  {
    forall a: Node, b: Node | NodeOrder(a) == NodeOrder(b)
      ensures NodeKey(a) == NodeKey(b)
    {
      assert NodeOrder(a)[0] == NodeOrder(b)[0];
    }
    forall a: Challenge, b: Challenge | ChallengeOrder(a) == ChallengeOrder(b)
      ensures ChallengeKey(a) == ChallengeKey(b)
    {
      assert ChallengeOrder(a)[1] == ChallengeOrder(b)[1];
    }
    forall a: Telemetry, b: Telemetry | TelemetryOrder(a) == TelemetryOrder(b)
      ensures TelemetryKey(a) == TelemetryKey(b)
    {
      assert TelemetryOrder(a)[0] == TelemetryOrder(b)[0] && TelemetryOrder(a)[1] == TelemetryOrder(b)[1];
    }
    forall a: AlertState, b: AlertState | AlertOrder(a) == AlertOrder(b)
      ensures AlertKeyOf(a) == AlertKeyOf(b)
    {
      assert AlertOrder(a)[0] == AlertOrder(b)[0] && AlertOrder(a)[1] == AlertOrder(b)[1] && AlertOrder(a)[2] == AlertOrder(b)[2];
    }
  }

  lemma RefColumnsSeparate<X(!new)>()
    ensures forall a: Observation<X>, b: Observation<X> :: RefOrder(a) == RefOrder(b) ==> RefKey(a) == RefKey(b)
  {
    forall a: Observation<X>, b: Observation<X> | RefOrder(a) == RefOrder(b)
      ensures RefKey(a) == RefKey(b)
    {
      assert RefOrder(a)[0] == RefOrder(b)[0];
    }
  }

  lemma DailyColumnsSeparate()
    ensures forall a: Summary, b: Summary :: SummaryOrder(a) == SummaryOrder(b) ==> SummaryKey(a) == SummaryKey(b)
    ensures forall a: Decision, b: Decision :: DecisionOrder(a) == DecisionOrder(b) ==> DecisionKey(a) == DecisionKey(b)
    ensures forall a: Base, b: Base :: BaseOrder(a) == BaseOrder(b) ==> BaseKey(a) == BaseKey(b)
  {
    forall a: Summary, b: Summary | SummaryOrder(a) == SummaryOrder(b)
      ensures SummaryKey(a) == SummaryKey(b)
    {
      assert SummaryOrder(a)[0] == SummaryOrder(b)[0] && SummaryOrder(a)[1] == SummaryOrder(b)[1];
    }
    forall a: Decision, b: Decision | DecisionOrder(a) == DecisionOrder(b)
      ensures DecisionKey(a) == DecisionKey(b)
    {
      assert DecisionOrder(a)[0] == DecisionOrder(b)[0] && DecisionOrder(a)[1] == DecisionOrder(b)[1];
    }
    forall a: Base, b: Base | BaseOrder(a) == BaseOrder(b)
      ensures BaseKey(a) == BaseKey(b)
    {
      assert BaseOrder(a)[0] == BaseOrder(b)[0] && BaseOrder(a)[1] == BaseOrder(b)[1];
    }
  }

  lemma RankedColumnsSeparate()
    ensures forall a: Ranking, b: Ranking :: RankingOrder(a) == RankingOrder(b) ==> RankingKey(a) == RankingKey(b) && a.rank == b.rank
    ensures forall a: Eligibility, b: Eligibility :: EligibilityOrder(a) == EligibilityOrder(b) ==> EligibilityKey(a) == EligibilityKey(b)
    ensures forall a: Allocation, b: Allocation :: AllocationOrder(a) == AllocationOrder(b) ==> AllocationKey(a) == AllocationKey(b)
  {
    forall a: Ranking, b: Ranking | RankingOrder(a) == RankingOrder(b)
      ensures RankingKey(a) == RankingKey(b) && a.rank == b.rank
    {
      assert RankingOrder(a)[0] == RankingOrder(b)[0] && RankingOrder(a)[1] == RankingOrder(b)[1] && RankingOrder(a)[2] == RankingOrder(b)[2];
    }
    forall a: Eligibility, b: Eligibility | EligibilityOrder(a) == EligibilityOrder(b)
      ensures EligibilityKey(a) == EligibilityKey(b)
    {
      assert EligibilityOrder(a)[0] == EligibilityOrder(b)[0] && EligibilityOrder(a)[2] == EligibilityOrder(b)[2];
    }
    forall a: Allocation, b: Allocation | AllocationOrder(a) == AllocationOrder(b)
      ensures AllocationKey(a) == AllocationKey(b)
    {
      assert AllocationOrder(a)[0] == AllocationOrder(b)[0] && AllocationOrder(a)[2] == AllocationOrder(b)[2];
    }
  }

  /** Heartbeats with equal sort columns are equal. */
  lemma HeartbeatColumnsSeparate(a: Heartbeat, b: Heartbeat)
    requires HeartbeatOrder(a) == HeartbeatOrder(b)
    ensures a == b
  {
    var x, y := HeartbeatOrder(a), HeartbeatOrder(b);
    assert x[0] == y[0] && x[1] == y[1] && x[2] == y[2] && x[3] == y[3] && x[4] == y[4];
  }

  // ---- Well-formed stores ----

  ghost predicate TableOk<K(!new), V>(m: map<K, V>, key: V -> K, node: V -> string, nodes: set<string>) {
    forall k :: k in m ==> key(m[k]) == k && node(m[k]) in nodes
  }

  ghost predicate LogOk<V>(log: seq<V>, node: V -> string, nodes: set<string>) {
    forall i :: 0 <= i < |log| ==> node(log[i]) in nodes
  }

  function ChallengeNode(c: Challenge): string { c.nodeId }
  function ObservedNode<X>(e: Observation<X>): string { e.nodeId }
  function TelemetryNode(t: Telemetry): string { t.nodeId }
  function SummaryNode(r: Summary): string { r.nodeId }
  function DecisionNode(r: Decision): string { r.nodeId }
  function BaseNode(r: Base): string { r.nodeId }
  function RankingNode(r: Ranking): string { r.nodeId }
  function EligibilityNode(r: Eligibility): string { r.nodeId }
  function AllocationNode(r: Allocation): string { r.nodeId }
  function AlertNode(a: AlertState): string { a.nodeId }
  function HeartbeatNode(b: Heartbeat): string { b.nodeId }
  function DeliveryNode(d: Delivery): string { d.nodeId }
  function OperationalNode(e: Operational): string { e.nodeId }

  /** The fields of a node that come from the seed configuration and never change. */
  predicate SameSeed(a: Node, b: Node) {
    a.nodeId == b.nodeId && a.displayName == b.displayName && a.operatorEmail == b.operatorEmail && a.enabled == b.enabled
  }

  ghost predicate NodesOk(seed: map<string, Node>, nodes: map<string, Node>) {
    nodes.Keys == seed.Keys && forall n :: n in nodes ==> nodes[n].nodeId == n && SameSeed(nodes[n], seed[n])
  }

  ghost predicate EvidenceOk(e: Evidence, nodes: set<string>) {
    && TableOk(e.groups, RefKey, ObservedNode, nodes)
    && TableOk(e.votingKeys, RefKey, ObservedNode, nodes)
    && TableOk(e.placements, RefKey, ObservedNode, nodes)
    && TableOk(e.domains, RefKey, ObservedNode, nodes)
    && TableOk(e.planes, RefKey, ObservedNode, nodes)
  }

  ghost predicate DerivedOk(v: Derived, nodes: set<string>) {
    && TableOk(v.summaries, SummaryKey, SummaryNode, nodes)
    && TableOk(v.decisions, DecisionKey, DecisionNode, nodes)
    && TableOk(v.bases, BaseKey, BaseNode, nodes)
    && TableOk(v.rankings, RankingKey, RankingNode, nodes)
    && TableOk(v.eligibility, EligibilityKey, EligibilityNode, nodes)
    && TableOk(v.allocations, AllocationKey, AllocationNode, nodes)
  }

  ghost predicate LogsOk(s: State, nodes: set<string>) {
    && LogOk(s.heartbeats, HeartbeatNode, nodes)
    && LogOk(s.telemetry, TelemetryNode, nodes)
    && LogOk(s.deliveries, DeliveryNode, nodes)
    && LogOk(s.operational, OperationalNode, nodes)
  }

  ghost predicate EventsOk(s: State, nodes: set<string>) {
    && TableOk(s.challenges, ChallengeKey, ChallengeNode, nodes)
    && TableOk(s.checks, RefKey, ObservedNode, nodes)
    && TableOk(s.probes, RefKey, ObservedNode, nodes)
    && TableOk(s.latestTelemetry, TelemetryKey, TelemetryNode, nodes)
    && TableOk(s.alertStates, AlertKeyOf, AlertNode, nodes)
  }

  /** Keys repeat the fields of their rows, and every row belongs to a node of the seed. */
  ghost predicate WellFormed(seed: map<string, Node>, s: State) {
    && NodesOk(seed, s.nodes)
    && EventsOk(s, seed.Keys)
    && LogsOk(s, seed.Keys)
    && EvidenceOk(s.evidence, seed.Keys)
    && DerivedOk(s.derived, seed.Keys)
  }

  // ---- The empty store ----

  const NO_EVIDENCE := Evidence(map[], map[], map[], map[], map[])
  const NOTHING_DERIVED := Derived(map[], map[], map[], map[], map[], map[])

  /** The nodes that the configuration loader hands over: enabled, never enrolled, never heard of. */
  ghost predicate SeedOk(seed: map<string, Node>) {
    forall n :: n in seed ==>
      && seed[n].nodeId == n && n != "" && seed[n].enabled
      && seed[n].fingerprint == "" && seed[n].publicKey == "" && seed[n].generation == 0
      && seed[n].registeredAt == None && seed[n].lastSequence == 0 && seed[n].lastHeartbeat == None
      && seed[n].lastPolicyVersion == ""
  }

  /** `store.New`: the seed nodes and nothing else. */
  function Fresh(seed: map<string, Node>): State {
    State(seed, map[], map[], [], [], map[], map[], NO_EVIDENCE, NOTHING_DERIVED, map[], [], [])
  }

  function RegistrationsOf(nodes: map<string, Node>): Registrations {
    map n | n in nodes :: nodes[n].registeredAt
  }
}
