/** Saving the store as a snapshot and loading it back over the configured nodes. */
module Snapshots {
  import opened Orders
  import opened Records
  import opened Tables
  import opened PortalState

  datatype Snapshot = Snapshot(
    nodes: seq<Node>,
    challenges: seq<Challenge>,
    checks: seq<Observation<Check>>,
    heartbeats: seq<Heartbeat>,
    telemetry: seq<Telemetry>,
    probes: seq<Observation<Probe>>,
    summaries: seq<Summary>,
    decisions: seq<Decision>,
    bases: seq<Base>,
    rankings: seq<Ranking>,
    eligibility: seq<Eligibility>,
    allocations: seq<Allocation>,
    groups: seq<Observation<GroupClaim>>,
    votingKeys: seq<Observation<VotingKey>>,
    placements: seq<Observation<Placement>>,
    domains: seq<Observation<DomainClaim>>,
    planes: seq<Observation<ControlClaim>>,
    latestTelemetry: seq<Telemetry>,
    alertStates: seq<AlertState>,
    deliveries: seq<Delivery>,
    operational: seq<Operational>)

  /** Every table sorted by its columns; the heartbeat log sorted as well, the other logs as they are. */
  ghost function SnapshotOf(s: State): Snapshot {
    Snapshot(
      Sorting(s.nodes, NodeOrder),
      Sorting(s.challenges, ChallengeOrder),
      Sorting(s.checks, RefOrder),
      Rearranged(s.heartbeats, HeartbeatOrder),
      s.telemetry,
      Sorting(s.probes, RefOrder),
      Sorting(s.derived.summaries, SummaryOrder),
      Sorting(s.derived.decisions, DecisionOrder),
      Sorting(s.derived.bases, BaseOrder),
      Sorting(s.derived.rankings, RankingOrder),
      Sorting(s.derived.eligibility, EligibilityOrder),
      Sorting(s.derived.allocations, AllocationOrder),
      Sorting(s.evidence.groups, RefOrder),
      Sorting(s.evidence.votingKeys, RefOrder),
      Sorting(s.evidence.placements, RefOrder),
      Sorting(s.evidence.domains, RefOrder),
      Sorting(s.evidence.planes, RefOrder),
      Sorting(s.latestTelemetry, TelemetryOrder),
      Sorting(s.alertStates, AlertOrder),
      s.deliveries,
      s.operational)
  }

  // ---- Loading ----

  /** The runtime fields of a saved node over the configured ones. */
  function MergeNode(seedNode: Node, saved: Node): Node {
    seedNode.(
      fingerprint := saved.fingerprint,
      publicKey := saved.publicKey,
      generation := saved.generation,
      registeredAt := saved.registeredAt,
      lastSequence := saved.lastSequence,
      lastHeartbeat := saved.lastHeartbeat,
      lastPolicyVersion := saved.lastPolicyVersion)
  }

  ghost predicate NodesKnown(seed: map<string, Node>, saved: seq<Node>) {
    forall i :: 0 <= i < |saved| ==> saved[i].nodeId in seed
  }

  function MergeNodes(seed: map<string, Node>, saved: seq<Node>): (nodes: map<string, Node>)
    requires forall i :: 0 <= i < |saved| ==> saved[i].nodeId in seed
    ensures nodes.Keys == seed.Keys
  {
    if saved == [] then seed
    else
      var front, last := MergeNodes(seed, saved[..|saved| - 1]), saved[|saved| - 1];
      front[last.nodeId := MergeNode(front[last.nodeId], last)]
  }

  ghost predicate EventRowsKnown(snap: Snapshot, nodes: set<string>) {
    && LogOk(snap.challenges, ChallengeNode, nodes)
    && LogOk(snap.checks, ObservedNode, nodes)
    && LogOk(snap.heartbeats, HeartbeatNode, nodes)
    && LogOk(snap.telemetry, TelemetryNode, nodes)
    && LogOk(snap.probes, ObservedNode, nodes)
  }

  ghost predicate DerivedRowsKnown(snap: Snapshot, nodes: set<string>) {
    && LogOk(snap.summaries, SummaryNode, nodes)
    && LogOk(snap.decisions, DecisionNode, nodes)
    && LogOk(snap.bases, BaseNode, nodes)
    && LogOk(snap.rankings, RankingNode, nodes)
    && LogOk(snap.eligibility, EligibilityNode, nodes)
    && LogOk(snap.allocations, AllocationNode, nodes)
  }

  ghost predicate EvidenceRowsKnown(snap: Snapshot, nodes: set<string>) {
    && LogOk(snap.groups, ObservedNode, nodes)
    && LogOk(snap.votingKeys, ObservedNode, nodes)
    && LogOk(snap.placements, ObservedNode, nodes)
    && LogOk(snap.domains, ObservedNode, nodes)
    && LogOk(snap.planes, ObservedNode, nodes)
  }

  ghost predicate AlertRowsKnown(snap: Snapshot, nodes: set<string>) {
    && LogOk(snap.latestTelemetry, TelemetryNode, nodes)
    && LogOk(snap.alertStates, AlertNode, nodes)
    && LogOk(snap.deliveries, DeliveryNode, nodes)
    && LogOk(snap.operational, OperationalNode, nodes)
  }

  /** Every row of the snapshot belongs to a configured node. */
  ghost predicate RowsKnown(snap: Snapshot, nodes: set<string>) {
    EventRowsKnown(snap, nodes) && DerivedRowsKnown(snap, nodes) && EvidenceRowsKnown(snap, nodes) && AlertRowsKnown(snap, nodes)
  }

  ghost predicate Loadable(seed: map<string, Node>, snap: Snapshot) {
    NodesKnown(seed, snap.nodes) && RowsKnown(snap, seed.Keys)
  }

  function EvidenceFrom(snap: Snapshot): Evidence {
    Evidence(
      FromRows(snap.groups, RefKey),
      FromRows(snap.votingKeys, RefKey),
      FromRows(snap.placements, RefKey),
      FromRows(snap.domains, RefKey),
      FromRows(snap.planes, RefKey))
  }

  function DerivedFrom(snap: Snapshot): Derived {
    Derived(
      FromRows(snap.summaries, SummaryKey),
      FromRows(snap.decisions, DecisionKey),
      FromRows(snap.bases, BaseKey),
      FromRows(snap.rankings, RankingKey),
      FromRows(snap.eligibility, EligibilityKey),
      FromRows(snap.allocations, AllocationKey))
  }

  /** The store that a loadable snapshot gives. */
  function Loaded(seed: map<string, Node>, snap: Snapshot): State
    requires forall i :: 0 <= i < |snap.nodes| ==> snap.nodes[i].nodeId in seed
  {
    State(
      MergeNodes(seed, snap.nodes),
      FromRows(snap.challenges, ChallengeKey),
      FromRows(snap.checks, RefKey),
      snap.heartbeats,
      snap.telemetry,
      FromRows(snap.latestTelemetry, TelemetryKey),
      FromRows(snap.probes, RefKey),
      EvidenceFrom(snap),
      DerivedFrom(snap),
      FromRows(snap.alertStates, AlertKeyOf),
      snap.deliveries,
      snap.operational)
  }

  // ---- Round trip ----

  /** What a node is after merging: its last saved runtime fields over its configured ones. */
  lemma {:induction false} MergedNode(seed: map<string, Node>, saved: seq<Node>, n: string)
    requires NodesKnown(seed, saved) && n in seed
    ensures MergeNodes(seed, saved)[n]
         == if n in FromRows(saved, NodeKey) then MergeNode(seed[n], FromRows(saved, NodeKey)[n]) else seed[n]
  {
    if saved != [] {
      MergedNode(seed, saved[..|saved| - 1], n);
    }
  }

  /** Whatever a snapshot says of a node, its configured fields stay those of the configuration. */
  lemma {:induction false} MergingKeepsConfiguration(seed: map<string, Node>, saved: seq<Node>, n: string)
    requires NodesKnown(seed, saved) && n in seed
    ensures var node := MergeNodes(seed, saved)[n];
      && node.nodeId == seed[n].nodeId && node.displayName == seed[n].displayName
      && node.operatorEmail == seed[n].operatorEmail && node.enabled == seed[n].enabled
  {
    if saved != [] {
      MergingKeepsConfiguration(seed, saved[..|saved| - 1], n);
    }
  }

  /** Only runtime fields differ from the seed, so merging the saved nodes gives them back whole. */
  lemma MergingRestores(seed: map<string, Node>, nodes: map<string, Node>)
    requires NodesOk(seed, nodes)
    ensures NodesKnown(seed, Sorting(nodes, NodeOrder))
    ensures MergeNodes(seed, Sorting(nodes, NodeOrder)) == nodes
  {
    var saved := Sorting(nodes, NodeOrder);
    forall i | 0 <= i < |saved|
      ensures saved[i].nodeId in seed
    {
      assert saved[i] in nodes.Values;
    }
    FromRowsRebuilds(nodes, saved, NodeKey);
    forall n | n in nodes
      ensures MergeNodes(seed, saved)[n] == nodes[n]
    {
      MergedNode(seed, saved, n);
    }
  }

  /** A well-formed table is rebuilt from its sorted listing, and all its rows are known. */
  lemma TableRestored<K(!new), V(!new)>(m: map<K, V>, key: V -> K, node: V -> string, nodes: set<string>, order: V -> Key)
    requires TableOk(m, key, node, nodes)
    ensures FromRows(Sorting(m, order), key) == m
    ensures LogOk(Sorting(m, order), node, nodes)
  {
    FromRowsRebuilds(m, Sorting(m, order), key);
    forall i | 0 <= i < |Sorting(m, order)|
      ensures node(Sorting(m, order)[i]) in nodes
    {
      assert Sorting(m, order)[i] in m.Values;
    }
  }

  lemma EvidenceRestored(s: State, nodes: set<string>)
    requires EvidenceOk(s.evidence, nodes)
    ensures EvidenceFrom(SnapshotOf(s)) == s.evidence
    ensures var snap := SnapshotOf(s);
      && LogOk(snap.groups, ObservedNode, nodes) && LogOk(snap.votingKeys, ObservedNode, nodes)
      && LogOk(snap.placements, ObservedNode, nodes) && LogOk(snap.domains, ObservedNode, nodes)
      && LogOk(snap.planes, ObservedNode, nodes)
  {
    hide Sorting, FromRows, TableOk, LogOk, Rearranged;
    TableRestored(s.evidence.groups, RefKey, ObservedNode, nodes, RefOrder);
    TableRestored(s.evidence.votingKeys, RefKey, ObservedNode, nodes, RefOrder);
    TableRestored(s.evidence.placements, RefKey, ObservedNode, nodes, RefOrder);
    TableRestored(s.evidence.domains, RefKey, ObservedNode, nodes, RefOrder);
    TableRestored(s.evidence.planes, RefKey, ObservedNode, nodes, RefOrder);
  }

  lemma DerivedRestored(s: State, nodes: set<string>)
    requires DerivedOk(s.derived, nodes)
    ensures DerivedFrom(SnapshotOf(s)) == s.derived
    ensures var snap := SnapshotOf(s);
      && LogOk(snap.summaries, SummaryNode, nodes) && LogOk(snap.decisions, DecisionNode, nodes)
      && LogOk(snap.bases, BaseNode, nodes) && LogOk(snap.rankings, RankingNode, nodes)
      && LogOk(snap.eligibility, EligibilityNode, nodes) && LogOk(snap.allocations, AllocationNode, nodes)
  {
    hide Sorting, FromRows, TableOk, LogOk, Rearranged;
    TableRestored(s.derived.summaries, SummaryKey, SummaryNode, nodes, SummaryOrder);
    TableRestored(s.derived.decisions, DecisionKey, DecisionNode, nodes, DecisionOrder);
    TableRestored(s.derived.bases, BaseKey, BaseNode, nodes, BaseOrder);
    TableRestored(s.derived.rankings, RankingKey, RankingNode, nodes, RankingOrder);
    TableRestored(s.derived.eligibility, EligibilityKey, EligibilityNode, nodes, EligibilityOrder);
    TableRestored(s.derived.allocations, AllocationKey, AllocationNode, nodes, AllocationOrder);
  }

  lemma EventsRestored(s: State, nodes: set<string>)
    requires EventsOk(s, nodes)
    ensures var snap := SnapshotOf(s);
      && FromRows(snap.challenges, ChallengeKey) == s.challenges
      && FromRows(snap.checks, RefKey) == s.checks
      && FromRows(snap.probes, RefKey) == s.probes
      && FromRows(snap.latestTelemetry, TelemetryKey) == s.latestTelemetry
      && FromRows(snap.alertStates, AlertKeyOf) == s.alertStates
      && LogOk(snap.challenges, ChallengeNode, nodes) && LogOk(snap.checks, ObservedNode, nodes)
      && LogOk(snap.probes, ObservedNode, nodes) && LogOk(snap.latestTelemetry, TelemetryNode, nodes)
      && LogOk(snap.alertStates, AlertNode, nodes)
  {
    hide Sorting, FromRows, TableOk, LogOk, Rearranged;
    TableRestored(s.challenges, ChallengeKey, ChallengeNode, nodes, ChallengeOrder);
    TableRestored(s.checks, RefKey, ObservedNode, nodes, RefOrder);
    TableRestored(s.probes, RefKey, ObservedNode, nodes, RefOrder);
    TableRestored(s.latestTelemetry, TelemetryKey, TelemetryNode, nodes, TelemetryOrder);
    TableRestored(s.alertStates, AlertKeyOf, AlertNode, nodes, AlertOrder);
  }

  lemma LogReordered<V(!new)>(xs: seq<V>, ys: seq<V>, node: V -> string, nodes: set<string>)
    requires multiset(xs) == multiset(ys) && LogOk(xs, node, nodes)
    ensures LogOk(ys, node, nodes)
  {
    forall i | 0 <= i < |ys|
      ensures node(ys[i]) in nodes
    {
      assert ys[i] in multiset(xs);
    }
  }

  /** The store that a save and a reload give: the same, with the heartbeat log sorted. */
  ghost function Reloaded(s: State): State {
    s.(heartbeats := Rearranged(s.heartbeats, HeartbeatOrder))
  }

  lemma SavedRowsKnown(s: State, nodes: set<string>)
    requires EventsOk(s, nodes) && LogsOk(s, nodes) && EvidenceOk(s.evidence, nodes) && DerivedOk(s.derived, nodes)
    ensures RowsKnown(SnapshotOf(s), nodes)
  {
    hide Sorting, FromRows, TableOk, LogOk, EvidenceFrom, DerivedFrom, EventsOk, EvidenceOk, DerivedOk, Rearranged;
    EventsRestored(s, nodes);
    EvidenceRestored(s, nodes);
    DerivedRestored(s, nodes);
    LogReordered(s.heartbeats, SnapshotOf(s).heartbeats, HeartbeatNode, nodes) by {
      assert multiset(s.heartbeats) == multiset(Rearranged(s.heartbeats, HeartbeatOrder));
    }
  }

  /** Every well-formed store is accepted when reloaded over the same seed, comes back unchanged up to
      the order of its heartbeat log, and saves to the identical snapshot again. */
  lemma SnapshotRoundTrip(seed: map<string, Node>, s: State)
    requires WellFormed(seed, s)
    ensures Loadable(seed, SnapshotOf(s))
    ensures Loaded(seed, SnapshotOf(s)) == Reloaded(s)
    ensures SnapshotOf(Reloaded(s)) == SnapshotOf(s)
    ensures WellFormed(seed, Reloaded(s))
  {
    hide Sorting, FromRows, TableOk, LogOk, MergeNodes, EvidenceFrom, DerivedFrom, RowsKnown, NodesOk, EvidenceOk, DerivedOk, NodesKnown;
    SavedNodesKnown(seed, s.nodes);
    SavedRowsKnown(s, seed.Keys);
    MergingRestores(seed, s.nodes);
    EventsRestored(s, seed.Keys);
    EvidenceRestored(s, seed.Keys);
    DerivedRestored(s, seed.Keys);
    LogReordered(s.heartbeats, Rearranged(s.heartbeats, HeartbeatOrder), HeartbeatNode, seed.Keys);
    SortingSortedLog(s.heartbeats);
  }

  lemma SavedNodesKnown(seed: map<string, Node>, nodes: map<string, Node>)
    requires NodesOk(seed, nodes)
    ensures NodesKnown(seed, Sorting(nodes, NodeOrder))
    ensures forall i :: 0 <= i < |Sorting(nodes, NodeOrder)| ==> Sorting(nodes, NodeOrder)[i].nodeId in seed
  {
    hide Sorting;
    MergingRestores(seed, nodes);
  }

  lemma SortingSortedLog(beats: seq<Heartbeat>)
    ensures Rearranged(Rearranged(beats, HeartbeatOrder), HeartbeatOrder) == Rearranged(beats, HeartbeatOrder)
  {
    var once := Rearranged(beats, HeartbeatOrder);
    BeatsSeparate(Rearranged(once, HeartbeatOrder));
    SortedUnique(Rearranged(once, HeartbeatOrder), once, HeartbeatOrder);
  }

  lemma BeatsSeparate(beats: seq<Heartbeat>)
    ensures Separates(Members(beats), HeartbeatOrder)
  {
    forall a, b | a in Members(beats) && b in Members(beats) && HeartbeatOrder(a) == HeartbeatOrder(b)
      ensures a == b
    {
      HeartbeatColumnsSeparate(a, b);
    }
  }
}
