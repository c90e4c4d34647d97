/** The status views: a decision, its ranking row and its eligibility row, put together for a reader. */
module ReadViews {
  import opened Orders
  import opened Records
  import opened Tables
  import opened ProbeSummary
  import opened Qualification
  import opened Rewards
  import opened PortalState
  import opened Portal
  import opened Views
  import opened Reachable
  import opened PortalRuns
  import opened Guarantees

  datatype PublicStatus = PublicStatus(nodeId: string, date: int, qualified: bool, rank: Option<int>, rewardEligible: bool, reason: Reason)

  datatype OperatorStatus = OperatorStatus(
    nodeId: string, date: int, qualified: bool, rank: Option<int>, rewardEligible: bool, reason: Reason,
    failures: seq<Reason>, heartbeatPassed: bool, hardwarePassed: bool, votingKeyPassed: bool,
    operatorGroupId: string, exclusion: Reason)

  /** `summarizeStatusReason`; a missing eligibility row reads as one without node and reason. */
  function StatusReason(d: Decision, reward: Option<Eligibility>): Reason {
    if reward.Some? && reward.value.exclusion != NoReason then reward.value.exclusion
    else if !d.qualified then
      if d.insufficient != NoReason then d.insufficient
      else if |d.failures| > 0 then d.failures[0]
      else NotQualified
    else if reward.None? || reward.value.nodeId == "" then QualifiedOnly
    else if reward.value.eligible then EligibleForReward
    else QualifiedOnly
  }

  function PublicStatusOf(nodeId: string, date: int, d: Decision, ranking: Option<Ranking>, reward: Option<Eligibility>): PublicStatus {
    PublicStatus(
      nodeId, date, d.qualified,
      if ranking.Some? && ranking.value.nodeId != "" then Some(ranking.value.rank) else None,
      reward.Some? && reward.value.eligible,
      StatusReason(d, reward))
  }

  function OperatorStatusOf(nodeId: string, date: int, d: Decision, ranking: Option<Ranking>, reward: Option<Eligibility>): OperatorStatus {
    var shown := PublicStatusOf(nodeId, date, d, ranking, reward);
    OperatorStatus(
      nodeId, date, shown.qualified, shown.rank, shown.rewardEligible, shown.reason,
      d.failures, d.heartbeatPassed, d.hardwarePassed, d.votingKeyPassed,
      if reward.Some? then reward.value.operatorGroupId else "",
      if reward.Some? then reward.value.exclusion else NoReason)
  }

  function Lookup<K, V>(m: map<K, V>, k: K): Option<V> {
    if k in m then Some(m[k]) else None
  }

  // ---- Indexes over the listings of a date ----

  method RankingIndex(rows: seq<Ranking>) returns (index: map<string, Ranking>)
    ensures index == FromRows(rows, RankingNode)
  {
    index := map[];
    for i := 0 to |rows|
      invariant index == FromRows(rows[..i], RankingNode)
    {
      assert rows[..i + 1][..i] == rows[..i];
      index := index[rows[i].nodeId := rows[i]];
    }
    assert rows[..|rows|] == rows;
  }

  lemma {:induction false} StandingsAreRows(rows: seq<Eligibility>)
    ensures StandingsOf(rows) == FromRows(rows, EligibilityNode)
  {
    if rows != [] {
      StandingsAreRows(rows[..|rows| - 1]);
    }
  }

  /** The index over a listed date finds exactly what the table holds for a node. */
  lemma IndexFindsRow<V(!new)>(m: map<NodeDate, V>, key: V -> NodeDate, node: V -> string, order: V -> Key, nodeId: string, date: int)
    requires KeyedBy(m, key) && forall r :: node(r) == key(r).0
    ensures Lookup(FromRows(Sorting(OnDate(m, date), order), node), nodeId) == Lookup(m, (nodeId, date))
  {
    var rows := Sorting(OnDate(m, date), order);
    forall i, j | 0 <= i < j < |rows|
      ensures node(rows[i]) != node(rows[j])
    {
      assert rows[i] in OnDate(m, date).Values && rows[j] in OnDate(m, date).Values;
    }
    FromRowsHolds(rows, node);
    if (nodeId, date) in m {
      assert OnDate(m, date)[(nodeId, date)] == m[(nodeId, date)];
      assert m[(nodeId, date)] in OnDate(m, date).Values;
      assert m[(nodeId, date)] in rows;
    }
    if nodeId in FromRows(rows, node) {
      var r := FromRows(rows, node)[nodeId];
      assert r in rows;
      assert r in OnDate(m, date).Values;
    }
  }

  // ---- The public view of a date ----

  /** What the public view shows: one entry for each node with a decision, in node order. */
  ghost function PublicStatuses(nodes: seq<Node>, v: Derived, date: int): seq<PublicStatus> {
    if nodes == [] then []
    else
      var front, k := PublicStatuses(nodes[..|nodes| - 1], v, date), (nodes[|nodes| - 1].nodeId, date);
      if k in v.decisions
      then front + [PublicStatusOf(k.0, date, v.decisions[k], Lookup(v.rankings, k), Lookup(v.eligibility, k))]
      else front
  }

  /** `handlePublicNodeStatusRead`: list, index, and look every node up. */
  method ReadPublicStatus(s: State, date: int) returns (items: seq<PublicStatus>)
    requires KeyedBy(s.nodes, NodeKey) && TablesKeyed(s.derived)
    ensures items == PublicStatuses(Sorting(s.nodes, NodeOrder), s.derived, date) && Ascend(items)
  {
    hide Ascend;
    ListedStatusesAscend(s.nodes, s.derived, date);
    SortColumnsSeparate();
    RankedColumnsSeparate();
    var v := s.derived;
    var rankings := ListByDate(v.rankings, date, RankingKey, RankingOrder);
    var rewards := ListByDate(v.eligibility, date, EligibilityKey, EligibilityOrder);
    var rankingByNode := RankingIndex(rankings);
    var rewardByNode := IndexByNode(rewards);
    var nodes := SortTable(s.nodes, NodeKey, NodeOrder);
    StandingsAreRows(rewards);
    items := [];
    for i := 0 to |nodes|
      invariant items == PublicStatuses(nodes[..i], v, date)
    {
      assert nodes[..i + 1][..i] == nodes[..i];
      var k := (nodes[i].nodeId, date);
      if k in v.decisions {
        IndexFindsRow(v.rankings, RankingKey, RankingNode, RankingOrder, k.0, date);
        IndexFindsRow(v.eligibility, EligibilityKey, EligibilityNode, EligibilityOrder, k.0, date);
        items := items + [PublicStatusOf(k.0, date, v.decisions[k], Lookup(rankingByNode, k.0), Lookup(rewardByNode, k.0))];
      }
    }
    assert nodes[..|nodes|] == nodes;
  }

  /** Nodes are listed by ascending ids. */
  lemma ListingAscends(nodes: map<string, Node>)
    requires KeyedBy(nodes, NodeKey)
    ensures var listed := Sorting(nodes, NodeOrder);
      forall i, j :: 0 <= i < j < |listed| ==> TextBefore(listed[i].nodeId, listed[j].nodeId)
  {
    hide TextBefore;
    var listed := Sorting(nodes, NodeOrder);
    forall i, j | 0 <= i < j < |listed|
      ensures listed[i].nodeId != listed[j].nodeId
    {
      assert listed[i] in nodes.Values && listed[j] in nodes.Values;
    }
    SortedTextsAscend(listed, NodeOrder, NodeKey);
  }

  predicate Among(nodes: seq<Node>, nodeId: string) {
    exists k :: 0 <= k < |nodes| && nodes[k].nodeId == nodeId
  }

  ghost predicate Ascend(items: seq<PublicStatus>) {
    forall i, j :: 0 <= i < j < |items| ==> TextBefore(items[i].nodeId, items[j].nodeId)
  }

  /** The public view shows nodes with a decision of the date, each once, by ascending ids. */
  lemma {:induction false} StatusesAscend(nodes: seq<Node>, v: Derived, date: int)
    requires forall i, j :: 0 <= i < j < |nodes| ==> TextBefore(nodes[i].nodeId, nodes[j].nodeId)
    ensures var items := PublicStatuses(nodes, v, date);
      && Ascend(items)
      && forall i :: 0 <= i < |items| ==> items[i].date == date && (items[i].nodeId, date) in v.decisions && Among(nodes, items[i].nodeId)
  {
    hide TextBefore, PublicStatusOf;
    if nodes != [] {
      var n := |nodes| - 1;
      var before := nodes[..n];
      StatusesAscend(before, v, date);
      var front, items := PublicStatuses(before, v, date), PublicStatuses(nodes, v, date);
      forall i | 0 <= i < |front|
        ensures TextBefore(front[i].nodeId, nodes[n].nodeId) && Among(nodes, front[i].nodeId)
      {
        assert Among(before, front[i].nodeId);
        var k :| 0 <= k < |before| && before[k].nodeId == front[i].nodeId;
        assert nodes[k].nodeId == front[i].nodeId;
      }
      if (nodes[n].nodeId, date) in v.decisions {
        NamedStatus(nodes[n].nodeId, v, date);
        assert |items| == |front| + 1 && items[..|front|] == front && items[|front|].nodeId == nodes[n].nodeId;
      }
    }
  }

  lemma ListedStatusesAscend(nodes: map<string, Node>, v: Derived, date: int)
    requires KeyedBy(nodes, NodeKey)
    ensures Ascend(PublicStatuses(Sorting(nodes, NodeOrder), v, date))
  {
    hide Sorting, TextBefore, PublicStatuses;
    ListingAscends(nodes);
    StatusesAscend(Sorting(nodes, NodeOrder), v, date);
  }

  lemma NamedStatus(nodeId: string, v: Derived, date: int)
    requires (nodeId, date) in v.decisions
    ensures var k := (nodeId, date);
      var item := PublicStatusOf(nodeId, date, v.decisions[k], Lookup(v.rankings, k), Lookup(v.eligibility, k));
      item.nodeId == nodeId && item.date == date
  {
  }

  datatype OperatorReply = UnknownNodeId | MissingDecision | Shown(status: OperatorStatus)

  /** `handleOperatorNodeStatusRead` for one node. */
  method ReadOperatorStatus(s: State, nodeId: string, date: int) returns (reply: OperatorReply)
    requires TablesKeyed(s.derived)
    ensures reply == (
      if nodeId !in s.nodes then UnknownNodeId
      else if (nodeId, date) !in s.derived.decisions then MissingDecision
      else Shown(OperatorStatusOf(nodeId, date, s.derived.decisions[(nodeId, date)],
        Lookup(s.derived.rankings, (nodeId, date)), Lookup(s.derived.eligibility, (nodeId, date)))))
  {
    if nodeId !in s.nodes {
      return UnknownNodeId;
    }
    var v := s.derived;
    if (nodeId, date) !in v.decisions {
      return MissingDecision;
    }
    RankedColumnsSeparate();
    var rankings := ListByDate(v.rankings, date, RankingKey, RankingOrder);
    var rewards := ListByDate(v.eligibility, date, EligibilityKey, EligibilityOrder);
    var rankingByNode := RankingIndex(rankings);
    var rewardByNode := IndexByNode(rewards);
    StandingsAreRows(rewards);
    IndexFindsRow(v.rankings, RankingKey, RankingNode, RankingOrder, nodeId, date);
    IndexFindsRow(v.eligibility, EligibilityKey, EligibilityNode, EligibilityOrder, nodeId, date);
    reply := Shown(OperatorStatusOf(nodeId, date, v.decisions[(nodeId, date)], Lookup(rankingByNode, nodeId), Lookup(rewardByNode, nodeId)));
  }

  // ---- Consistency ----

  const NEVER_LISTED := {NoReason, NotQualified, QualifiedOnly}

  lemma ListedReasons(s: Summary, r: Readings)
    ensures forall x :: x in Failures(s, r) ==> x !in NEVER_LISTED
  {
  }

  lemma GradedReasons(s: Summary, d: Decision)
    requires GradedAs(s, d) && CountsOrdered(s)
    ensures d.qualified <==> d.failures == []
    ensures forall x :: x in d.failures ==> x !in NEVER_LISTED
    ensures d.heartbeatPassed <==> HeartbeatStale !in d.failures && HeartbeatMissing !in d.failures
    ensures d.hardwarePassed <==> HardwareCheckMissing !in d.failures && HardwareCheckFailed !in d.failures
    ensures d.votingKeyPassed <==>
      VotingKeyEvidenceMissing !in d.failures && VotingKeyNotPresent !in d.failures && VotingKeyInvalid !in d.failures
    ensures d.insufficient in {NoReason, NoValidProbes, InsufficientProbeRegions, MissingFinalizedLagEvidence}
  {
    hide Failures, HeartbeatFailure, HardwareFailure, VotingKeyFailure, ProbeFailure;
    var r :| d == DecisionOf(s, r);
    ListedReasons(s, r);
    ReasonsOfGates(s, r);
  }

  lemma ReasonsOfGates(s: Summary, r: Readings)
    ensures HeartbeatFailure(r) == NoReason <==> HeartbeatStale !in Failures(s, r) && HeartbeatMissing !in Failures(s, r)
    ensures HardwareFailure(r) == NoReason <==> HardwareCheckMissing !in Failures(s, r) && HardwareCheckFailed !in Failures(s, r)
    ensures VotingKeyFailure(r) == NoReason <==>
      VotingKeyEvidenceMissing !in Failures(s, r) && VotingKeyNotPresent !in Failures(s, r) && VotingKeyInvalid !in Failures(s, r)
  {
    hide Failures;
    FailuresAre(s, r);
  }

  lemma FailuresAre(s: Summary, r: Readings)
    ensures forall x :: x in Failures(s, r) <==>
      x != NoReason && x in {ProbeFailure(s), HeartbeatFailure(r), HardwareFailure(r), VotingKeyFailure(r), ObservationFailure(r)}
  {
    hide ProbeFailure, HeartbeatFailure, HardwareFailure, VotingKeyFailure, ObservationFailure;
  }

  /** What the status of a node on a date with a decision shows: a rank exactly for a qualified node;
      eligibility exactly for a qualified node that is not excluded; as reason, the exclusion or
      eligibility of a qualified node and what first failed for any other; and never one of the
      fallback reasons. */
  ghost predicate StatusConsistent(v: Derived, k: NodeDate)
    requires k in v.decisions
  {
    var d, reward := v.decisions[k], Lookup(v.eligibility, k);
    var shown := PublicStatusOf(k.0, k.1, d, Lookup(v.rankings, k), reward);
    && (shown.rank.Some? <==> d.qualified)
    && (d.qualified <==> d.failures == [])
    && (d.qualified <==> reward.Some?)
    && (shown.rewardEligible <==> reward.Some? && reward.value.exclusion == NoReason)
    && (shown.rewardEligible ==> shown.reason == EligibleForReward)
    && (d.qualified && !shown.rewardEligible ==>
         shown.reason == reward.value.exclusion && shown.reason in {SameOperatorGroup, SameRegistrableDomain, SameSharedControlPlane})
    && (!d.qualified ==> shown.reason == if d.insufficient != NoReason then d.insufficient else d.failures[0])
    && shown.reason !in NEVER_LISTED
    && OperatorConsistent(v, k)
  }

  /** What the operator's view adds: it shows the same, each gate is passed exactly if nothing is listed
      against it, and group and exclusion are those of the reward row. */
  ghost predicate OperatorConsistent(v: Derived, k: NodeDate)
    requires k in v.decisions
  {
    var d, reward := v.decisions[k], Lookup(v.eligibility, k);
    var shown := PublicStatusOf(k.0, k.1, d, Lookup(v.rankings, k), reward);
    var full := OperatorStatusOf(k.0, k.1, d, Lookup(v.rankings, k), reward);
    && PublicStatus(full.nodeId, full.date, full.qualified, full.rank, full.rewardEligible, full.reason) == shown
    && (full.heartbeatPassed <==> HeartbeatStale !in full.failures && HeartbeatMissing !in full.failures)
    && (full.hardwarePassed <==> HardwareCheckMissing !in full.failures && HardwareCheckFailed !in full.failures)
    && (full.votingKeyPassed <==>
          VotingKeyEvidenceMissing !in full.failures && VotingKeyNotPresent !in full.failures && VotingKeyInvalid !in full.failures)
    && (full.qualified ==> reward.Some? && full.operatorGroupId == reward.value.operatorGroupId && full.exclusion == reward.value.exclusion)
    && (!full.qualified ==> full.operatorGroupId == "" && full.exclusion == NoReason)
  }

  /** Every status of a reachable store is consistent. */
  lemma ReachableStatus(c: Config, seed: map<string, Node>, run: seq<Event>, k: NodeDate)
    requires SeedOk(seed) && Lawful(c, seed, run) && k in After(c, seed, run).mem.derived.decisions
    ensures StatusConsistent(After(c, seed, run).mem.derived, k)
  {
    hide After, Lawful, StateOk, SavedOk, StatusConsistent;
    RunOk(c, seed, run);
    StatusIsConsistent(c, seed, After(c, seed, run).mem, k);
  }

  lemma StatusIsConsistent(c: Config, seed: map<string, Node>, s: State, k: NodeDate)
    requires SeedOk(seed) && StateOk(c, seed, s) && k in s.derived.decisions
    ensures StatusConsistent(s.derived, k)
  {
    hide WellFormed, ViewsOk, GradedAs, CountsOrdered;
    RowsExist(c, seed, s, k);
    RowsNamed(seed, s, k);
    DecisionGraded(c, seed, s, k);
    GradedReasons(s.derived.summaries[k], s.derived.decisions[k]);
  }

  lemma DecisionGraded(c: Config, seed: map<string, Node>, s: State, k: NodeDate)
    requires StateOk(c, seed, s) && k in s.derived.decisions
    ensures k in s.derived.summaries && GradedAs(s.derived.summaries[k], s.derived.decisions[k]) && CountsOrdered(s.derived.summaries[k])
  {
    hide WellFormed, GradedAs, CountsOrdered, SummaryFresh, RankingFresh, RewardsFresh, RankingStands, RewardsFollow;
  }

  lemma RowsNamed(seed: map<string, Node>, s: State, k: NodeDate)
    requires SeedOk(seed) && WellFormed(seed, s)
    ensures k in s.derived.rankings ==> s.derived.rankings[k].nodeId == k.0 && k.0 != ""
    ensures k in s.derived.eligibility ==> s.derived.eligibility[k].nodeId == k.0 && k.0 != ""
  {
    hide NodesOk, EventsOk, LogsOk, EvidenceOk;
    assert k in s.derived.rankings ==> RankingKey(s.derived.rankings[k]) == k && RankingNode(s.derived.rankings[k]) in seed.Keys;
    assert k in s.derived.eligibility ==> EligibilityKey(s.derived.eligibility[k]) == k && EligibilityNode(s.derived.eligibility[k]) in seed.Keys;
  }
}
