/** In which order the rows of a saved snapshot stand. */
module SnapshotOrder {
  import opened Orders
  import opened Records
  import opened PortalState
  import opened Snapshots

  /** The first text comes before the second, or they are the same and `rest` holds. */
  ghost predicate TextThen(a: string, b: string, rest: bool) {
    TextBefore(a, b) || (a == b && rest)
  }

  predicate NumberThen(a: int, b: int, rest: bool) {
    a < b || (a == b && rest)
  }

  // ---- Keys column by column ----

  lemma TextColumn(a: string, xs: Key, b: string, ys: Key)
    ensures !KeyLess([Text(b)] + ys, [Text(a)] + xs) <==> TextThen(a, b, !KeyLess(ys, xs))
  {
    hide TextBefore;
    KeyLessStep(Text(b), ys, Text(a), xs);
    TextLessTotal(a, b);
    TextLessIff(a, b);
    TextLessIff(b, a);
  }

  lemma NumberColumn(a: int, xs: Key, b: int, ys: Key)
    ensures !KeyLess([Num(b)] + ys, [Num(a)] + xs) <==> NumberThen(a, b, !KeyLess(ys, xs))
  {
    KeyLessStep(Num(b), ys, Num(a), xs);
  }

  lemma NoColumns()
    ensures !KeyLess([], [])
  {
  }

  // ---- Pairs of rows, the first not after the second ----

  lemma ByText(a: string, b: string)
    ensures !KeyLess([Text(b)], [Text(a)]) <==> TextThen(a, b, true)
  {
    hide TextThen;
    NoColumns();
    assert [Text(a)] == [Text(a)] + [] && [Text(b)] == [Text(b)] + [];
    TextColumn(a, [], b, []);
  }

  lemma ByTexts(a: string, a': string, b: string, b': string)
    ensures !KeyLess([Text(b), Text(b')], [Text(a), Text(a')]) <==> TextThen(a, b, TextThen(a', b', true))
  {
    hide TextThen;
    ByText(a', b');
    assert [Text(a), Text(a')] == [Text(a)] + [Text(a')] && [Text(b), Text(b')] == [Text(b)] + [Text(b')];
    TextColumn(a, [Text(a')], b, [Text(b')]);
  }

  lemma ByDateAndNode(a: int, a': string, b: int, b': string)
    ensures !KeyLess([Num(b), Text(b')], [Num(a), Text(a')]) <==> NumberThen(a, b, TextThen(a', b', true))
  {
    hide TextThen, NumberThen;
    ByText(a', b');
    assert [Num(a), Text(a')] == [Num(a)] + [Text(a')] && [Num(b), Text(b')] == [Num(b)] + [Text(b')];
    NumberColumn(a, [Text(a')], b, [Text(b')]);
  }

  lemma ByDateAndRank(a: int, a': int, a'': string, b: int, b': int, b'': string)
    ensures !KeyLess([Num(b), Num(b'), Text(b'')], [Num(a), Num(a'), Text(a'')])
      <==> NumberThen(a, b, NumberThen(a', b', TextThen(a'', b'', true)))
  {
    hide TextThen, NumberThen;
    ByDateAndNode(a', a'', b', b'');
    assert [Num(a), Num(a'), Text(a'')] == [Num(a)] + [Num(a'), Text(a'')];
    assert [Num(b), Num(b'), Text(b'')] == [Num(b)] + [Num(b'), Text(b'')];
    NumberColumn(a, [Num(a'), Text(a'')], b, [Num(b'), Text(b'')]);
  }

  lemma ByNodeCodeSeverity(a: string, a': string, a'': int, b: string, b': string, b'': int)
    ensures !KeyLess([Text(b), Text(b'), Num(b'')], [Text(a), Text(a'), Num(a'')])
      <==> TextThen(a, b, TextThen(a', b', a'' <= b''))
  {
    hide TextThen;
    NoColumns();
    assert [Num(a'')] == [Num(a'')] + [] && [Num(b'')] == [Num(b'')] + [];
    NumberColumn(a'', [], b'', []);
    assert [Text(a'), Num(a'')] == [Text(a')] + [Num(a'')] && [Text(b'), Num(b'')] == [Text(b')] + [Num(b'')];
    TextColumn(a', [Num(a'')], b', [Num(b'')]);
    assert [Text(a), Text(a'), Num(a'')] == [Text(a)] + [Text(a'), Num(a'')];
    assert [Text(b), Text(b'), Num(b'')] == [Text(b)] + [Text(b'), Num(b'')];
    TextColumn(a, [Text(a'), Num(a'')], b, [Text(b'), Num(b'')]);
  }

  // ---- The snapshot ----

  /** Nodes and everything with a reference by their ids, challenges by node and id. */
  ghost predicate IdsAscend(snap: Snapshot) {
    && (forall i, j :: 0 <= i < j < |snap.nodes| ==> TextThen(snap.nodes[i].nodeId, snap.nodes[j].nodeId, true))
    && (forall i, j :: 0 <= i < j < |snap.challenges| ==>
          TextThen(snap.challenges[i].nodeId, snap.challenges[j].nodeId, TextThen(snap.challenges[i].id, snap.challenges[j].id, true)))
    && RefsAscend(snap.checks) && RefsAscend(snap.probes) && RefsAscend(snap.groups) && RefsAscend(snap.votingKeys)
    && RefsAscend(snap.placements) && RefsAscend(snap.domains) && RefsAscend(snap.planes)
  }

  ghost predicate RefsAscend<X>(rows: seq<Observation<X>>) {
    forall i, j :: 0 <= i < j < |rows| ==> TextThen(rows[i].ref, rows[j].ref, true)
  }

  /** Daily rows by date, and within a date by node, or by rank and then by node. */
  ghost predicate DatesAscend(snap: Snapshot) {
    && (forall i, j :: 0 <= i < j < |snap.summaries| ==>
          NumberThen(snap.summaries[i].date, snap.summaries[j].date, TextThen(snap.summaries[i].nodeId, snap.summaries[j].nodeId, true)))
    && (forall i, j :: 0 <= i < j < |snap.decisions| ==>
          NumberThen(snap.decisions[i].date, snap.decisions[j].date, TextThen(snap.decisions[i].nodeId, snap.decisions[j].nodeId, true)))
    && (forall i, j :: 0 <= i < j < |snap.bases| ==>
          NumberThen(snap.bases[i].date, snap.bases[j].date, TextThen(snap.bases[i].nodeId, snap.bases[j].nodeId, true)))
  }

  ghost predicate RanksAscend(snap: Snapshot) {
    && (forall i, j :: 0 <= i < j < |snap.rankings| ==>
          NumberThen(snap.rankings[i].date, snap.rankings[j].date,
            NumberThen(snap.rankings[i].rank, snap.rankings[j].rank, TextThen(snap.rankings[i].nodeId, snap.rankings[j].nodeId, true))))
    && (forall i, j :: 0 <= i < j < |snap.eligibility| ==>
          NumberThen(snap.eligibility[i].date, snap.eligibility[j].date,
            NumberThen(snap.eligibility[i].rank, snap.eligibility[j].rank, TextThen(snap.eligibility[i].nodeId, snap.eligibility[j].nodeId, true))))
    && (forall i, j :: 0 <= i < j < |snap.allocations| ==>
          NumberThen(snap.allocations[i].date, snap.allocations[j].date,
            NumberThen(snap.allocations[i].rank, snap.allocations[j].rank, TextThen(snap.allocations[i].nodeId, snap.allocations[j].nodeId, true))))
  }

  function SeverityRank(s: Severity): int {
    if s.Critical? then 0 else 1
  }

  /** The latest warnings by node and code. */
  ghost predicate WarningsAscend(rows: seq<Telemetry>) {
    forall i, j :: 0 <= i < j < |rows| ==> TextThen(rows[i].nodeId, rows[j].nodeId, TextThen(rows[i].code, rows[j].code, true))
  }

  /** Alert states by node and code, the critical ones first. */
  ghost predicate AlertsAscend(rows: seq<AlertState>) {
    forall i, j :: 0 <= i < j < |rows| ==>
      TextThen(rows[i].nodeId, rows[j].nodeId,
        TextThen(rows[i].code, rows[j].code, SeverityRank(rows[i].severity) <= SeverityRank(rows[j].severity)))
  }

  /** Heartbeats by time text, then by node and number. */
  ghost predicate BeatsAscend(rows: seq<Heartbeat>) {
    forall i, j :: 0 <= i < j < |rows| ==>
      StampLess(rows[i].at, rows[j].at)
      || (rows[i].at == rows[j].at && TextThen(rows[i].nodeId, rows[j].nodeId, rows[i].sequence <= rows[j].sequence))
  }

  lemma RefsAreAscending<X(!new)>(rows: seq<Observation<X>>)
    requires Sorted(rows, RefOrder)
    ensures RefsAscend(rows)
  {
    hide TextThen;
    forall i, j | 0 <= i < j < |rows|
      ensures TextThen(rows[i].ref, rows[j].ref, true)
    {
      ByText(rows[i].ref, rows[j].ref);
    }
  }

  lemma IdsAreAscending(s: State)
    ensures IdsAscend(SnapshotOf(s))
  {
    hide TextThen, RefsAscend;
    var snap := SnapshotOf(s);
    forall i, j | 0 <= i < j < |snap.nodes|
      ensures TextThen(snap.nodes[i].nodeId, snap.nodes[j].nodeId, true)
    {
      ByText(snap.nodes[i].nodeId, snap.nodes[j].nodeId);
    }
    forall i, j | 0 <= i < j < |snap.challenges|
      ensures TextThen(snap.challenges[i].nodeId, snap.challenges[j].nodeId, TextThen(snap.challenges[i].id, snap.challenges[j].id, true))
    {
      ByTexts(snap.challenges[i].nodeId, snap.challenges[i].id, snap.challenges[j].nodeId, snap.challenges[j].id);
    }
    RefsAreAscending(snap.checks);
    RefsAreAscending(snap.probes);
    RefsAreAscending(snap.groups);
    RefsAreAscending(snap.votingKeys);
    RefsAreAscending(snap.placements);
    RefsAreAscending(snap.domains);
    RefsAreAscending(snap.planes);
  }

  lemma DatesAreAscending(s: State)
    ensures DatesAscend(SnapshotOf(s))
  {
    hide TextThen, NumberThen;
    var snap := SnapshotOf(s);
    forall i, j | 0 <= i < j < |snap.summaries|
      ensures NumberThen(snap.summaries[i].date, snap.summaries[j].date, TextThen(snap.summaries[i].nodeId, snap.summaries[j].nodeId, true))
    {
      ByDateAndNode(snap.summaries[i].date, snap.summaries[i].nodeId, snap.summaries[j].date, snap.summaries[j].nodeId);
    }
    forall i, j | 0 <= i < j < |snap.decisions|
      ensures NumberThen(snap.decisions[i].date, snap.decisions[j].date, TextThen(snap.decisions[i].nodeId, snap.decisions[j].nodeId, true))
    {
      ByDateAndNode(snap.decisions[i].date, snap.decisions[i].nodeId, snap.decisions[j].date, snap.decisions[j].nodeId);
    }
    forall i, j | 0 <= i < j < |snap.bases|
      ensures NumberThen(snap.bases[i].date, snap.bases[j].date, TextThen(snap.bases[i].nodeId, snap.bases[j].nodeId, true))
    {
      ByDateAndNode(snap.bases[i].date, snap.bases[i].nodeId, snap.bases[j].date, snap.bases[j].nodeId);
    }
  }

  lemma RanksAreAscending(s: State)
    ensures RanksAscend(SnapshotOf(s))
  {
    hide TextThen, NumberThen;
    var snap := SnapshotOf(s);
    forall i, j | 0 <= i < j < |snap.rankings|
      ensures NumberThen(snap.rankings[i].date, snap.rankings[j].date,
        NumberThen(snap.rankings[i].rank, snap.rankings[j].rank, TextThen(snap.rankings[i].nodeId, snap.rankings[j].nodeId, true)))
    {
      var (a, b) := (snap.rankings[i], snap.rankings[j]);
      ByDateAndRank(a.date, a.rank, a.nodeId, b.date, b.rank, b.nodeId);
    }
    forall i, j | 0 <= i < j < |snap.eligibility|
      ensures NumberThen(snap.eligibility[i].date, snap.eligibility[j].date,
        NumberThen(snap.eligibility[i].rank, snap.eligibility[j].rank, TextThen(snap.eligibility[i].nodeId, snap.eligibility[j].nodeId, true)))
    {
      var (a, b) := (snap.eligibility[i], snap.eligibility[j]);
      ByDateAndRank(a.date, a.rank, a.nodeId, b.date, b.rank, b.nodeId);
    }
    forall i, j | 0 <= i < j < |snap.allocations|
      ensures NumberThen(snap.allocations[i].date, snap.allocations[j].date,
        NumberThen(snap.allocations[i].rank, snap.allocations[j].rank, TextThen(snap.allocations[i].nodeId, snap.allocations[j].nodeId, true)))
    {
      var (a, b) := (snap.allocations[i], snap.allocations[j]);
      ByDateAndRank(a.date, a.rank, a.nodeId, b.date, b.rank, b.nodeId);
    }
  }

  lemma WarningsAreAscending(rows: seq<Telemetry>)
    requires Sorted(rows, TelemetryOrder)
    ensures WarningsAscend(rows)
  {
    hide TextThen, KeyLess;
    forall i, j | 0 <= i < j < |rows|
      ensures TextThen(rows[i].nodeId, rows[j].nodeId, TextThen(rows[i].code, rows[j].code, true))
    {
      ByTexts(rows[i].nodeId, rows[i].code, rows[j].nodeId, rows[j].code);
    }
  }

  lemma AlertsAreAscending(rows: seq<AlertState>)
    requires Sorted(rows, AlertOrder)
    ensures AlertsAscend(rows)
  {
    hide TextThen, KeyLess;
    forall i, j | 0 <= i < j < |rows|
      ensures TextThen(rows[i].nodeId, rows[j].nodeId,
        TextThen(rows[i].code, rows[j].code, SeverityRank(rows[i].severity) <= SeverityRank(rows[j].severity)))
    {
      var (a, b) := (rows[i], rows[j]);
      ByNodeCodeSeverity(a.nodeId, a.code, SeverityRank(a.severity), b.nodeId, b.code, SeverityRank(b.severity));
    }
  }

  lemma BeatsAreAscending(rows: seq<Heartbeat>)
    requires Sorted(rows, HeartbeatOrder)
    ensures BeatsAscend(rows)
  {
    hide TextThen, StampLess, KeyLess, HeartbeatOrder;
    forall i, j | 0 <= i < j < |rows|
      ensures StampLess(rows[i].at, rows[j].at)
        || (rows[i].at == rows[j].at && TextThen(rows[i].nodeId, rows[j].nodeId, rows[i].sequence <= rows[j].sequence))
    {
      HeartbeatsCompare(rows[i], rows[j]);
    }
  }

  lemma HeartbeatsCompare(a: Heartbeat, b: Heartbeat)
    requires !KeyLess(HeartbeatOrder(b), HeartbeatOrder(a))
    ensures StampLess(a.at, b.at) || (a.at == b.at && TextThen(a.nodeId, b.nodeId, a.sequence <= b.sequence))
  {
    hide TextThen;
    NoColumns();
    var (x, y) := (StampKey(a.at), StampKey(b.at));
    var (u, v) := ([Text(a.nodeId), Num(a.sequence)], [Text(b.nodeId), Num(b.sequence)]);
    assert [Num(a.sequence)] == [Num(a.sequence)] + [] && [Num(b.sequence)] == [Num(b.sequence)] + [];
    NumberColumn(a.sequence, [], b.sequence, []);
    assert u == [Text(a.nodeId)] + [Num(a.sequence)] && v == [Text(b.nodeId)] + [Num(b.sequence)];
    TextColumn(a.nodeId, [Num(a.sequence)], b.nodeId, [Num(b.sequence)]);
    StampsThenRest(a.at, u, b.at, v);
  }

  lemma StampsThenRest(a: Stamp, u: Key, b: Stamp, v: Key)
    ensures !KeyLess(StampKey(b) + v, StampKey(a) + u) <==> StampLess(a, b) || (a == b && !KeyLess(v, u))
  {
    hide KeyLess;
    var (x, y) := (StampKey(a), StampKey(b));
    KeyLessTotal(x, y);
    KeyLessStep(y[2], v, x[2], u);
    KeyLessStep(y[1], [y[2]] + v, x[1], [x[2]] + u);
    KeyLessStep(y[0], [y[1]] + ([y[2]] + v), x[0], [x[1]] + ([x[2]] + u));
    assert x + u == [x[0]] + ([x[1]] + ([x[2]] + u)) && y + v == [y[0]] + ([y[1]] + ([y[2]] + v));
    KeyLessStep(x[2], [], y[2], []);
    KeyLessStep(x[1], [x[2]] + [], y[1], [y[2]] + []);
    KeyLessStep(x[0], [x[1]] + ([x[2]] + []), y[0], [y[1]] + ([y[2]] + []));
    assert x == [x[0]] + ([x[1]] + ([x[2]] + [])) && y == [y[0]] + ([y[1]] + ([y[2]] + []));
    NoColumns();
  }

  /** A saved snapshot lists nodes and referenced rows by id, daily rows by date, and logs as they are, except
      that heartbeats stand by time: whatever order the tables were filled in. */
  lemma SnapshotAscends(s: State)
    ensures var snap := SnapshotOf(s);
      && IdsAscend(snap) && DatesAscend(snap) && RanksAscend(snap)
      && WarningsAscend(snap.latestTelemetry) && AlertsAscend(snap.alertStates) && BeatsAscend(snap.heartbeats)
      && snap.telemetry == s.telemetry && snap.deliveries == s.deliveries && snap.operational == s.operational
      && multiset(snap.heartbeats) == multiset(s.heartbeats)
  {
    hide IdsAscend, DatesAscend, RanksAscend, WarningsAscend, AlertsAscend, BeatsAscend;
    IdsAreAscending(s);
    DatesAreAscending(s);
    RanksAreAscending(s);
    WarningsAreAscending(SnapshotOf(s).latestTelemetry);
    AlertsAreAscending(SnapshotOf(s).alertStates);
    BeatsAreAscending(SnapshotOf(s).heartbeats);
  }
}
