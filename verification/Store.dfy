/** The store as an object: tables and logs changed in place, saved as a snapshot and loaded back. */
module StoreMemory {
  import opened Orders
  import opened Records
  import opened Tables
  import opened ProbeSummary
  import opened PortalState
  import opened Snapshots

  ghost predicate DerivedKeyed(v: Derived) {
    && KeyedBy(v.summaries, SummaryKey) && KeyedBy(v.decisions, DecisionKey) && KeyedBy(v.bases, BaseKey)
    && KeyedBy(v.rankings, RankingKey) && KeyedBy(v.eligibility, EligibilityKey) && KeyedBy(v.allocations, AllocationKey)
  }

  ghost predicate EvidenceKeyed(e: Evidence) {
    && KeyedBy(e.groups, RefKey) && KeyedBy(e.votingKeys, RefKey) && KeyedBy(e.placements, RefKey)
    && KeyedBy(e.domains, RefKey) && KeyedBy(e.planes, RefKey)
  }

  /** Every row of every table sits under its key: what listing and saving rely on. */
  ghost predicate AllKeyed(s: State) {
    && KeyedBy(s.nodes, NodeKey) && KeyedBy(s.challenges, ChallengeKey) && KeyedBy(s.checks, RefKey) && KeyedBy(s.probes, RefKey)
    && KeyedBy(s.latestTelemetry, TelemetryKey) && KeyedBy(s.alertStates, AlertKeyOf)
    && EvidenceKeyed(s.evidence) && DerivedKeyed(s.derived)
  }

  lemma WellFormedIsKeyed(seed: map<string, Node>, s: State)
    requires WellFormed(seed, s)
    ensures AllKeyed(s)
  {
    hide LogsOk;
  }

  // ---- Loading loops ----

  /** Store the rows in turn, unless one belongs to an unknown node. */
  method LoadRows<K, V(==)>(rows: seq<V>, key: V -> K, node: V -> string, known: map<string, Node>) returns (ok: bool, table: map<K, V>)
    ensures ok <==> LogOk(rows, node, known.Keys)
    ensures ok ==> table == FromRows(rows, key)
  {
    table := map[];
    for i := 0 to |rows|
      invariant LogOk(rows[..i], node, known.Keys) && table == FromRows(rows[..i], key)
    {
      if node(rows[i]) !in known {
        return false, table;
      }
      assert rows[..i + 1][..i] == rows[..i];
      table := table[key(rows[i]) := rows[i]];
    }
    assert rows[..|rows|] == rows;
    ok := true;
  }

  method LoadLog<V(==)>(rows: seq<V>, node: V -> string, known: map<string, Node>) returns (ok: bool, log: seq<V>)
    ensures ok <==> LogOk(rows, node, known.Keys)
    ensures ok ==> log == rows
  {
    log := [];
    for i := 0 to |rows|
      invariant LogOk(rows[..i], node, known.Keys) && log == rows[..i]
    {
      if node(rows[i]) !in known {
        return false, log;
      }
      log := log + [rows[i]];
    }
    ok := true;
  }

  method LoadNodes(seed: map<string, Node>, saved: seq<Node>) returns (ok: bool, nodes: map<string, Node>)
    ensures ok <==> NodesKnown(seed, saved)
    ensures ok ==> nodes == MergeNodes(seed, saved)
  {
    nodes := seed;
    for i := 0 to |saved|
      invariant NodesKnown(seed, saved[..i]) && nodes == MergeNodes(seed, saved[..i])
    {
      if saved[i].nodeId !in nodes {
        return false, nodes;
      }
      assert saved[..i + 1][..i] == saved[..i];
      nodes := nodes[saved[i].nodeId := MergeNode(nodes[saved[i].nodeId], saved[i])];
    }
    assert saved[..|saved|] == saved;
    ok := true;
  }

  class Store {
    var nodes: map<string, Node>
    var challenges: map<string, Challenge>
    var checks: map<string, Observation<Check>>
    var heartbeats: seq<Heartbeat>
    var telemetry: seq<Telemetry>
    var latestTelemetry: map<(string, string), Telemetry>
    var probes: map<string, Observation<Probe>>
    var evidence: Evidence
    var derived: Derived
    var alertStates: map<(string, string, Severity), AlertState>
    var deliveries: seq<Delivery>
    var operational: seq<Operational>

    ghost function View(): State
      reads this
    {
      State(nodes, challenges, checks, heartbeats, telemetry, latestTelemetry, probes, evidence, derived, alertStates, deliveries, operational)
    }

    constructor (seed: map<string, Node>)
      ensures View() == Fresh(seed)
    {
      nodes, challenges, checks, probes := seed, map[], map[], map[];
      heartbeats, telemetry, deliveries, operational := [], [], [], [];
      latestTelemetry, alertStates := map[], map[];
      evidence, derived := NO_EVIDENCE, NOTHING_DERIVED;
    }

    // ---- Nodes and events ----

    method SaveNode(node: Node)
      modifies this
      ensures View() == old(View()).(nodes := old(nodes)[node.nodeId := node])
    {
      nodes := nodes[node.nodeId := node];
    }

    method ListNodes() returns (out: seq<Node>)
      requires KeyedBy(nodes, NodeKey)
      ensures out == Sorting(nodes, NodeOrder)
    {
      SortColumnsSeparate();
      out := SortTable(nodes, NodeKey, NodeOrder);
    }

    method SaveEnrollmentChallenge(challenge: Challenge)
      modifies this
      ensures View() == old(View()).(challenges := old(challenges)[challenge.id := challenge])
    {
      challenges := challenges[challenge.id := challenge];
    }

    method ConsumeEnrollmentChallenge(id: string, usedAt: int) returns (ok: bool)
      modifies this
      ensures ok == (id in old(challenges))
      ensures View() == old(View()).(challenges := if ok then old(challenges)[id := old(challenges)[id].(usedAt := Some(usedAt))] else old(challenges))
    {
      ok := id in challenges;
      if ok {
        challenges := challenges[id := challenges[id].(usedAt := Some(usedAt))];
      }
    }

    method SaveCheckEvent(event: Observation<Check>) returns (ok: bool)
      modifies this
      ensures ok == (event.ref !in old(checks))
      ensures View() == old(View()).(checks := if ok then old(checks)[event.ref := event] else old(checks))
    {
      ok := event.ref !in checks;
      if ok {
        checks := checks[event.ref := event];
      }
    }

    method SaveHeartbeatEvent(event: Heartbeat)
      modifies this
      ensures View() == old(View()).(heartbeats := old(heartbeats) + [event])
    {
      heartbeats := heartbeats + [event];
    }

    method SaveProbeEvent(event: Observation<Probe>) returns (ok: bool)
      modifies this
      ensures ok == (event.ref !in old(probes))
      ensures View() == old(View()).(probes := if ok then old(probes)[event.ref := event] else old(probes))
    {
      ok := event.ref !in probes;
      if ok {
        probes := probes[event.ref := event];
      }
    }

    /** The probes of a node whose time text starts with the date, each once, the latest first. */
    method ListProbeEventsByNodeAndDate(nodeId: string, date: int) returns (out: seq<Observation<Probe>>)
      requires KeyedBy(probes, RefKey)
      ensures Lists(out, probes, OfDay(probes, nodeId, date))
      ensures forall i, j :: 0 <= i < j < |out| ==> !StampLess(out[i].observedAt, out[j].observedAt)
      ensures forall i, j :: 0 <= i < j < |out| && out[i].observedAt == out[j].observedAt ==> TextLess(out[i].ref, out[j].ref)
    {
      var listed: seq<Observation<Probe>> := [];
      var todo := probes.Keys;
      while todo != {}
        invariant todo <= probes.Keys
        invariant Lists(listed, probes, OfDay(probes, nodeId, date) - todo)
      {
        var id :| id in todo;
        var event := probes[id];
        assert event.ref == id by { assert RefKey(probes[id]) == id; }
        if event.nodeId == nodeId && TextDate(event.observedAt) == date {
          ListsOneMore(listed, probes, OfDay(probes, nodeId, date) - todo, event);
          assert OfDay(probes, nodeId, date) - (todo - {id}) == OfDay(probes, nodeId, date) - todo + {id};
          listed := listed + [event];
        } else {
          assert OfDay(probes, nodeId, date) - (todo - {id}) == OfDay(probes, nodeId, date) - todo;
        }
        todo := todo - {id};
      }
      assert OfDay(probes, nodeId, date) - todo == OfDay(probes, nodeId, date);
      out := SortSlice(listed, LatestFirst);
      ListsAnyOrder(listed, out, probes, OfDay(probes, nodeId, date));
      LatestComesFirst(out);
    }

    method AddTelemetryEvent(event: Telemetry)
      modifies this
      ensures View() == old(View()).(telemetry := old(telemetry) + [event], latestTelemetry := old(latestTelemetry)[TelemetryKey(event) := event])
    {
      telemetry := telemetry + [event];
      latestTelemetry := latestTelemetry[TelemetryKey(event) := event];
    }

    method SaveAlertState(state: AlertState)
      modifies this
      ensures View() == old(View()).(alertStates := old(alertStates)[AlertKeyOf(state) := state])
    {
      alertStates := alertStates[AlertKeyOf(state) := state];
    }

    method AddNotificationDelivery(delivery: Delivery)
      modifies this
      ensures View() == old(View()).(deliveries := old(deliveries) + [delivery])
    {
      deliveries := deliveries + [delivery];
    }

    method AddOperationalEvent(event: Operational)
      modifies this
      ensures View() == old(View()).(operational := old(operational) + [event])
    {
      operational := operational + [event];
    }

    // ---- Daily records ----

    method SaveDailyQualificationSummary(summary: Summary)
      modifies this
      ensures View() == old(View()).(derived := old(derived).(summaries := old(derived).summaries[SummaryKey(summary) := summary]))
    {
      derived := derived.(summaries := derived.summaries[SummaryKey(summary) := summary]);
    }

    method SaveQualifiedDecisionRecord(decision: Decision)
      modifies this
      ensures View() == old(View()).(derived := old(derived).(decisions := old(derived).decisions[DecisionKey(decision) := decision]))
    {
      derived := derived.(decisions := derived.decisions[DecisionKey(decision) := decision]);
    }

    method SaveBasePerformanceRecord(record: Base)
      modifies this
      ensures View() == old(View()).(derived := old(derived).(bases := old(derived).bases[BaseKey(record) := record]))
    {
      derived := derived.(bases := derived.bases[BaseKey(record) := record]);
    }

    method DeleteBasePerformanceRecord(nodeId: string, date: int)
      modifies this
      ensures View() == old(View()).(derived := old(derived).(bases := old(derived).bases - {(nodeId, date)}))
    {
      derived := derived.(bases := derived.bases - {(nodeId, date)});
    }

    method ListBasePerformanceRecordsByDate(date: int) returns (out: seq<Base>)
      requires KeyedBy(derived.bases, BaseKey)
      ensures out == Sorting(OnDate(derived.bases, date), BaseOrder)
    {
      DailyColumnsSeparate();
      out := ListByDate(derived.bases, date, BaseKey, BaseOrder);
    }

    method ReplaceRankingRecordsForDate(date: int, rows: seq<Ranking>)
      requires KeyedBy(derived.rankings, RankingKey)
      modifies this
      ensures View() == old(View()).(derived := old(derived).(rankings := Replaced(old(derived).rankings, date, rows, RankingKey)))
    {
      var replaced := ReplaceForDate(derived.rankings, date, rows, RankingKey);
      derived := derived.(rankings := replaced);
    }

    method ListRankingRecordsByDate(date: int) returns (out: seq<Ranking>)
      requires KeyedBy(derived.rankings, RankingKey)
      ensures out == Sorting(OnDate(derived.rankings, date), RankingOrder)
    {
      RankedColumnsSeparate();
      out := ListByDate(derived.rankings, date, RankingKey, RankingOrder);
    }

    method ReplaceRewardEligibilityRecordsForDate(date: int, rows: seq<Eligibility>)
      requires KeyedBy(derived.eligibility, EligibilityKey)
      modifies this
      ensures View() == old(View()).(derived := old(derived).(eligibility := Replaced(old(derived).eligibility, date, rows, EligibilityKey)))
    {
      var replaced := ReplaceForDate(derived.eligibility, date, rows, EligibilityKey);
      derived := derived.(eligibility := replaced);
    }

    method ReplaceRewardAllocationRecordsForDate(date: int, rows: seq<Allocation>)
      requires KeyedBy(derived.allocations, AllocationKey)
      modifies this
      ensures View() == old(View()).(derived := old(derived).(allocations := Replaced(old(derived).allocations, date, rows, AllocationKey)))
    {
      var replaced := ReplaceForDate(derived.allocations, date, rows, AllocationKey);
      derived := derived.(allocations := replaced);
    }

    // ---- Evidence ----

    method SaveVotingKeyEvidence(e: Observation<VotingKey>) returns (ok: bool)
      modifies this
      ensures ok == (e.ref !in old(evidence).votingKeys)
      ensures View() == old(View()).(evidence := if ok then old(evidence).(votingKeys := old(evidence).votingKeys[e.ref := e]) else old(evidence))
    {
      ok := e.ref !in evidence.votingKeys;
      if ok {
        evidence := evidence.(votingKeys := evidence.votingKeys[e.ref := e]);
      }
    }

    method SaveOperatorGroupEvidence(e: Observation<GroupClaim>) returns (ok: bool)
      modifies this
      ensures ok == (e.ref !in old(evidence).groups)
      ensures View() == old(View()).(evidence := if ok then old(evidence).(groups := old(evidence).groups[e.ref := e]) else old(evidence))
    {
      ok := e.ref !in evidence.groups;
      if ok {
        evidence := evidence.(groups := evidence.groups[e.ref := e]);
      }
    }

    method SaveDecentralizationEvidence(e: Observation<Placement>) returns (ok: bool)
      modifies this
      ensures ok == (e.ref !in old(evidence).placements)
      ensures View() == old(View()).(evidence := if ok then old(evidence).(placements := old(evidence).placements[e.ref := e]) else old(evidence))
    {
      ok := e.ref !in evidence.placements;
      if ok {
        evidence := evidence.(placements := evidence.placements[e.ref := e]);
      }
    }

    method SaveDomainEvidence(e: Observation<DomainClaim>) returns (ok: bool)
      modifies this
      ensures ok == (e.ref !in old(evidence).domains)
      ensures View() == old(View()).(evidence := if ok then old(evidence).(domains := old(evidence).domains[e.ref := e]) else old(evidence))
    {
      ok := e.ref !in evidence.domains;
      if ok {
        evidence := evidence.(domains := evidence.domains[e.ref := e]);
      }
    }

    method SaveSharedControlPlaneEvidence(e: Observation<ControlClaim>) returns (ok: bool)
      modifies this
      ensures ok == (e.ref !in old(evidence).planes)
      ensures View() == old(View()).(evidence := if ok then old(evidence).(planes := old(evidence).planes[e.ref := e]) else old(evidence))
    {
      ok := e.ref !in evidence.planes;
      if ok {
        evidence := evidence.(planes := evidence.planes[e.ref := e]);
      }
    }

    // ---- Snapshot ----

    /** All tables listed and sorted, the heartbeat log sorted, the other logs copied. */
    method TakeSnapshot() returns (snap: Snapshot)
      requires AllKeyed(View())
      ensures snap == SnapshotOf(View())
    {
      var sortedNodes, sortedChallenges, sortedChecks, sortedProbes, latest, alerts := SnapshotEvents();
      var beats := SortSlice(heartbeats, HeartbeatOrder);
      SortedBeats(heartbeats, beats);
      var summaries, decisions, bases, rankings, eligibility, allocations := SnapshotDerived();
      var groups, votingKeys, placements, domains, planes := SnapshotEvidence();
      snap := Snapshot(sortedNodes, sortedChallenges, sortedChecks, beats, telemetry, sortedProbes,
        summaries, decisions, bases, rankings, eligibility, allocations,
        groups, votingKeys, placements, domains, planes, latest, alerts, deliveries, operational);
    }

    method SnapshotEvents() returns (ns: seq<Node>, cs: seq<Challenge>, ks: seq<Observation<Check>>, ps: seq<Observation<Probe>>, ts: seq<Telemetry>, ss: seq<AlertState>)
      requires AllKeyed(View())
      ensures ns == Sorting(nodes, NodeOrder) && cs == Sorting(challenges, ChallengeOrder)
      ensures ks == Sorting(checks, RefOrder) && ps == Sorting(probes, RefOrder)
      ensures ts == Sorting(latestTelemetry, TelemetryOrder) && ss == Sorting(alertStates, AlertOrder)
    {
      hide Sorting, EvidenceKeyed, DerivedKeyed, NodeOrder, ChallengeOrder, TelemetryOrder, AlertOrder;
      SortColumnsSeparate();
      ns := SortTable(nodes, NodeKey, NodeOrder);
      cs := SortTable(challenges, ChallengeKey, ChallengeOrder);
      ts := SortTable(latestTelemetry, TelemetryKey, TelemetryOrder);
      ss := SortTable(alertStates, AlertKeyOf, AlertOrder);
      ks := SortObservations(checks);
      ps := SortObservations(probes);
    }

    method SnapshotDerived() returns (ss: seq<Summary>, ds: seq<Decision>, bs: seq<Base>, rs: seq<Ranking>, es: seq<Eligibility>, xs: seq<Allocation>)
      requires DerivedKeyed(derived)
      ensures ss == Sorting(derived.summaries, SummaryOrder) && ds == Sorting(derived.decisions, DecisionOrder)
      ensures bs == Sorting(derived.bases, BaseOrder) && rs == Sorting(derived.rankings, RankingOrder)
      ensures es == Sorting(derived.eligibility, EligibilityOrder) && xs == Sorting(derived.allocations, AllocationOrder)
    {
      hide Sorting, SummaryOrder, DecisionOrder, BaseOrder, RankingOrder, EligibilityOrder, AllocationOrder;
      DailyColumnsSeparate();
      RankedColumnsSeparate();
      ss := SortTable(derived.summaries, SummaryKey, SummaryOrder);
      ds := SortTable(derived.decisions, DecisionKey, DecisionOrder);
      bs := SortTable(derived.bases, BaseKey, BaseOrder);
      rs := SortTable(derived.rankings, RankingKey, RankingOrder);
      es := SortTable(derived.eligibility, EligibilityKey, EligibilityOrder);
      xs := SortTable(derived.allocations, AllocationKey, AllocationOrder);
    }

    method SnapshotEvidence() returns (gs: seq<Observation<GroupClaim>>, vs: seq<Observation<VotingKey>>, ps: seq<Observation<Placement>>, ds: seq<Observation<DomainClaim>>, cs: seq<Observation<ControlClaim>>)
      requires EvidenceKeyed(evidence)
      ensures gs == Sorting(evidence.groups, RefOrder) && vs == Sorting(evidence.votingKeys, RefOrder)
      ensures ps == Sorting(evidence.placements, RefOrder) && ds == Sorting(evidence.domains, RefOrder)
      ensures cs == Sorting(evidence.planes, RefOrder)
    {
      hide Sorting, KeyedBy;
      gs := SortObservations(evidence.groups);
      vs := SortObservations(evidence.votingKeys);
      ps := SortObservations(evidence.placements);
      ds := SortObservations(evidence.domains);
      cs := SortObservations(evidence.planes);
    }

    /** `applySnapshot` on a new store: rows of unknown nodes are refused. */
    method ApplySnapshot(snap: Snapshot) returns (ok: bool)
      modifies this
      ensures ok <==> Loadable(old(nodes), snap)
      ensures ok ==> View() == Loaded(old(nodes), snap)
    {
      hide LogOk, FromRows, MergeNodes, NodesKnown;
      ghost var seed := nodes;
      var merged;
      ok, merged := LoadNodes(nodes, snap.nodes);
      if !ok {
        return;
      }
      nodes := merged;
      MergedKeys(seed, snap.nodes);
      ok := ApplyEvents(snap);
      if !ok {
        return;
      }
      ok := ApplyDerived(snap);
      if !ok {
        return;
      }
      ok := ApplyEvidence(snap);
      if !ok {
        return;
      }
      ok := ApplyAlerts(snap);
    }

    method ApplyEvents(snap: Snapshot) returns (ok: bool)
      modifies this
      ensures ok <==> EventRowsKnown(snap, old(nodes).Keys)
      ensures nodes == old(nodes)
      ensures ok ==> View() == old(View()).(
        challenges := FromRows(snap.challenges, ChallengeKey), checks := FromRows(snap.checks, RefKey),
        heartbeats := snap.heartbeats, telemetry := snap.telemetry, probes := FromRows(snap.probes, RefKey))
    {
      hide LogOk, FromRows;
      ok, challenges := LoadRows(snap.challenges, ChallengeKey, ChallengeNode, nodes);
      if !ok {
        return;
      }
      ok, checks := LoadRows(snap.checks, RefKey, ObservedNode, nodes);
      if !ok {
        return;
      }
      ok, heartbeats := LoadLog(snap.heartbeats, HeartbeatNode, nodes);
      if !ok {
        return;
      }
      ok, telemetry := LoadLog(snap.telemetry, TelemetryNode, nodes);
      if !ok {
        return;
      }
      ok, probes := LoadRows(snap.probes, RefKey, ObservedNode, nodes);
    }

    method ApplyDerived(snap: Snapshot) returns (ok: bool)
      modifies this
      ensures ok <==> DerivedRowsKnown(snap, old(nodes).Keys)
      ensures ok ==> View() == old(View()).(derived := DerivedFrom(snap))
      ensures nodes == old(nodes)
    {
      hide LogOk, FromRows;
      var summaries, decisions, bases, rankings, eligibility, allocations;
      ok, summaries := LoadRows(snap.summaries, SummaryKey, SummaryNode, nodes);
      if !ok {
        return;
      }
      ok, decisions := LoadRows(snap.decisions, DecisionKey, DecisionNode, nodes);
      if !ok {
        return;
      }
      ok, bases := LoadRows(snap.bases, BaseKey, BaseNode, nodes);
      if !ok {
        return;
      }
      ok, rankings := LoadRows(snap.rankings, RankingKey, RankingNode, nodes);
      if !ok {
        return;
      }
      ok, eligibility := LoadRows(snap.eligibility, EligibilityKey, EligibilityNode, nodes);
      if !ok {
        return;
      }
      ok, allocations := LoadRows(snap.allocations, AllocationKey, AllocationNode, nodes);
      if ok {
        derived := Derived(summaries, decisions, bases, rankings, eligibility, allocations);
      }
    }

    method ApplyEvidence(snap: Snapshot) returns (ok: bool)
      modifies this
      ensures ok <==> EvidenceRowsKnown(snap, old(nodes).Keys)
      ensures ok ==> View() == old(View()).(evidence := EvidenceFrom(snap))
      ensures nodes == old(nodes)
    {
      hide LogOk, FromRows;
      var groups, votingKeys, placements, domains, planes;
      ok, groups := LoadRows(snap.groups, RefKey, ObservedNode, nodes);
      if !ok {
        return;
      }
      ok, votingKeys := LoadRows(snap.votingKeys, RefKey, ObservedNode, nodes);
      if !ok {
        return;
      }
      ok, placements := LoadRows(snap.placements, RefKey, ObservedNode, nodes);
      if !ok {
        return;
      }
      ok, domains := LoadRows(snap.domains, RefKey, ObservedNode, nodes);
      if !ok {
        return;
      }
      ok, planes := LoadRows(snap.planes, RefKey, ObservedNode, nodes);
      if ok {
        evidence := Evidence(groups, votingKeys, placements, domains, planes);
      }
    }

    method ApplyAlerts(snap: Snapshot) returns (ok: bool)
      modifies this
      ensures ok <==> AlertRowsKnown(snap, old(nodes).Keys)
      ensures ok ==> View() == old(View()).(
        latestTelemetry := FromRows(snap.latestTelemetry, TelemetryKey), alertStates := FromRows(snap.alertStates, AlertKeyOf),
        deliveries := snap.deliveries, operational := snap.operational)
    {
      hide LogOk, FromRows;
      ok, latestTelemetry := LoadRows(snap.latestTelemetry, TelemetryKey, TelemetryNode, nodes);
      if !ok {
        return;
      }
      ok, alertStates := LoadRows(snap.alertStates, AlertKeyOf, AlertNode, nodes);
      if !ok {
        return;
      }
      ok, deliveries := LoadLog(snap.deliveries, DeliveryNode, nodes);
      if !ok {
        return;
      }
      ok, operational := LoadLog(snap.operational, OperationalNode, nodes);
    }
  }

  /** `Load`: a new store over the configured nodes, with the saved snapshot applied if there is one. */
  method Load(seed: map<string, Node>, disk: Option<Snapshot>) returns (ok: bool, store: Store)
    ensures fresh(store)
    ensures ok <==> disk.None? || Loadable(seed, disk.value)
    ensures ok ==> store.View() == if disk.None? then Fresh(seed) else Loaded(seed, disk.value)
  {
    store := new Store(seed);
    ok := true;
    if disk.Some? {
      ok := store.ApplySnapshot(disk.value);
    }
  }

  lemma MergedKeys(seed: map<string, Node>, saved: seq<Node>)
    requires NodesKnown(seed, saved)
    ensures MergeNodes(seed, saved).Keys == seed.Keys
  {
  }

  /** Sort columns of a probe listing: time text descending, then probe id. */
  function LatestFirst(e: Observation<Probe>): Key {
    [Num(-e.observedAt.local), Num(-(if e.observedAt.zone.Plus? then 0 else if e.observedAt.zone.Minus? then 1 else 2)),
     Num(-(if e.observedAt.zone.Zulu? then 0 else e.observedAt.zone.minutes)), Text(e.ref)]
  }

  /** A later time text comes first; of equal ones, the smaller probe id. */
  lemma LatestFirstDescends(a: Observation<Probe>, b: Observation<Probe>)
    ensures StampLess(b.observedAt, a.observedAt) ==> KeyLess(LatestFirst(a), LatestFirst(b))
    ensures a.observedAt == b.observedAt ==> (KeyLess(LatestFirst(a), LatestFirst(b)) <==> TextLess(a.ref, b.ref))
  {
    hide KeyLess;
    var (x, y) := (LatestFirst(a), LatestFirst(b));
    TextLessTotal(a.ref, b.ref);
    ThreeColumns(StampKey(b.observedAt), StampKey(a.observedAt));
    FourColumns(x, y);
  }

  lemma LatestComesFirst(out: seq<Observation<Probe>>)
    requires Sorted(out, LatestFirst)
    requires forall i, j :: 0 <= i < j < |out| ==> out[i].ref != out[j].ref
    ensures forall i, j :: 0 <= i < j < |out| ==> !StampLess(out[i].observedAt, out[j].observedAt)
    ensures forall i, j :: 0 <= i < j < |out| && out[i].observedAt == out[j].observedAt ==> TextLess(out[i].ref, out[j].ref)
  {
    hide KeyLess, StampLess, TextLess, LatestFirst;
    forall i, j | 0 <= i < j < |out|
      ensures !StampLess(out[i].observedAt, out[j].observedAt)
      ensures out[i].observedAt == out[j].observedAt ==> TextLess(out[i].ref, out[j].ref)
    {
      LatestFirstDescends(out[j], out[i]);
      TextLessTotal(out[i].ref, out[j].ref);
    }
  }

  lemma ThreeColumns(x: Key, y: Key)
    requires |x| == 3 && |y| == 3
    ensures KeyLess(x, y) <==>
      if x[0] != y[0] then AtomLess(x[0], y[0]) else if x[1] != y[1] then AtomLess(x[1], y[1]) else x[2] != y[2] && AtomLess(x[2], y[2])
  {
    hide KeyLess, AtomLess;
    KeyLessStep(x[2], [], y[2], []);
    KeyLessStep(x[1], [x[2]], y[1], [y[2]]);
    KeyLessStep(x[0], [x[1], x[2]], y[0], [y[1], y[2]]);
    NothingLess();
    assert [x[2]] + [] == [x[2]] && [y[2]] + [] == [y[2]];
    assert [x[1]] + [x[2]] == [x[1], x[2]] && [y[1]] + [y[2]] == [y[1], y[2]];
    assert [x[0]] + [x[1], x[2]] == x && [y[0]] + [y[1], y[2]] == y;
  }

  lemma FourColumns(x: Key, y: Key)
    requires |x| == 4 && |y| == 4
    ensures KeyLess(x, y) <==>
      if x[0] != y[0] then AtomLess(x[0], y[0])
      else if x[1] != y[1] then AtomLess(x[1], y[1])
      else if x[2] != y[2] then AtomLess(x[2], y[2])
      else x[3] != y[3] && AtomLess(x[3], y[3])
  {
    hide KeyLess, AtomLess;
    ThreeColumns([x[1], x[2], x[3]], [y[1], y[2], y[3]]);
    KeyLessStep(x[0], [x[1], x[2], x[3]], y[0], [y[1], y[2], y[3]]);
    assert [x[0]] + [x[1], x[2], x[3]] == x && [y[0]] + [y[1], y[2], y[3]] == y;
  }

  lemma NothingLess()
    ensures !KeyLess([], [])
  {
  }

  lemma ListsAnyOrder(listed: seq<Observation<Probe>>, out: seq<Observation<Probe>>, probes: Probes, ids: set<string>)
    requires Lists(listed, probes, ids) && multiset(out) == multiset(listed)
    ensures Lists(out, probes, ids)
  {
    forall e
      ensures e in out <==> e in listed
    {
      assert e in multiset(out) <==> e in multiset(listed);
    }
    assert Refs(out) == Refs(listed);
    OncePerRef(listed, out);
  }

  lemma OncePerRef(listed: seq<Observation<Probe>>, out: seq<Observation<Probe>>)
    requires multiset(out) == multiset(listed)
    requires forall i, j :: 0 <= i < j < |listed| ==> listed[i].ref != listed[j].ref
    ensures forall i, j :: 0 <= i < j < |out| ==> out[i].ref != out[j].ref
  {
    forall i, j | 0 <= i < j < |out|
      ensures out[i].ref != out[j].ref
    {
      assert out[i] in multiset(listed) && out[j] in multiset(listed);
      var k :| 0 <= k < |listed| && listed[k] == out[i];
      var m :| 0 <= m < |listed| && listed[m] == out[j];
      if k == m {
        TwiceInMultiset(out, i, j);
        OnceInMultiset(listed, k);
        assert false;
      }
    }
  }

  lemma TwiceInMultiset<X>(xs: seq<X>, i: nat, j: nat)
    requires i < j < |xs| && xs[i] == xs[j]
    ensures multiset(xs)[xs[i]] >= 2
  {
    assert xs == xs[..i + 1] + xs[i + 1..];
    assert xs[i] in xs[..i + 1] && xs[j] in xs[i + 1..];
    assert xs[i] in multiset(xs[..i + 1]) && xs[j] in multiset(xs[i + 1..]);
    assert multiset(xs) == multiset(xs[..i + 1]) + multiset(xs[i + 1..]);
  }

  lemma OnceInMultiset(xs: seq<Observation<Probe>>, k: nat)
    requires k < |xs|
    requires forall i, j :: 0 <= i < j < |xs| ==> xs[i].ref != xs[j].ref
    ensures multiset(xs)[xs[k]] == 1
  {
    assert xs == xs[..k] + [xs[k]] + xs[k + 1..];
    assert xs[k] !in xs[..k] && xs[k] !in xs[k + 1..];
    assert xs[k] !in multiset(xs[..k]) && xs[k] !in multiset(xs[k + 1..]);
    assert multiset(xs) == multiset(xs[..k]) + multiset([xs[k]]) + multiset(xs[k + 1..]);
  }

  lemma ListsOneMore(events: seq<Observation<Probe>>, probes: Probes, ids: set<string>, e: Observation<Probe>)
    requires Lists(events, probes, ids) && e.ref !in ids && e.ref in probes && probes[e.ref] == e
    ensures Lists(events + [e], probes, ids + {e.ref})
  {
    var longer := events + [e];
    assert Refs(longer) == Refs(events) + {e.ref};
    forall i, j | 0 <= i < j < |longer|
      ensures longer[i].ref != longer[j].ref
    {
      assert longer[i] in events;
    }
  }

  method SortObservations<X(==,!new)>(m: map<string, Observation<X>>) returns (out: seq<Observation<X>>)
    requires KeyedBy(m, RefKey)
    ensures out == Sorting(m, RefOrder)
  {
    RefColumnsSeparate<X>();
    out := SortTable(m, RefKey, RefOrder);
  }

  lemma SortedBeats(beats: seq<Heartbeat>, sorted: seq<Heartbeat>)
    requires multiset(sorted) == multiset(beats) && Sorted(sorted, HeartbeatOrder)
    ensures sorted == Rearranged(beats, HeartbeatOrder)
  {
    BeatsSeparate(sorted);
    SortedUnique(sorted, Rearranged(beats, HeartbeatOrder), HeartbeatOrder);
  }
}
