/** The rebuild steps that keep the derived tables of a date up to date. */
module Pipeline {
  import opened Orders
  import opened Records
  import opened Texts
  import opened RankingRules
  import opened AntiConcentration
  import opened Rewards
  import opened Tables
  import opened PortalState

  // ---- What a rebuild reads from the evidence tables ----

  type GroupLook = Option<Observation<GroupClaim>>

  /** The evidence found while ranking: placements for the count and for the score (in node order),
      groups and reward evidence (in rank order). */
  datatype RankLooks = RankLooks(counted: seq<Look>, scored: seq<Look>, groups: seq<GroupLook>, rewards: seq<RewardLook>)

  datatype ArtifactLooks = ArtifactLooks(check: Option<Observation<Check>>, votingKey: Option<Observation<VotingKey>>, ranks: RankLooks)

  ghost predicate PlacementsFound(e: Evidence, records: seq<Base>, date: int, looks: seq<Look>) {
    |looks| == |records| && forall i :: 0 <= i < |records| ==> IsLatest(e.placements, records[i].nodeId, date, looks[i])
  }

  ghost predicate GroupsFound(e: Evidence, records: seq<Base>, date: int, looks: seq<GroupLook>) {
    |looks| == |records| && forall i :: 0 <= i < |records| ==> IsLatest(e.groups, records[i].nodeId, date, looks[i])
  }

  ghost predicate RewardFound(e: Evidence, nodeId: string, date: int, look: RewardLook) {
    IsLatest(e.groups, nodeId, date, look.group) && IsLatest(e.domains, nodeId, date, look.domain) && IsLatest(e.planes, nodeId, date, look.plane)
  }

  ghost predicate RewardsFound(e: Evidence, rankings: seq<Ranking>, date: int, looks: seq<RewardLook>) {
    |looks| == |rankings| && forall i :: 0 <= i < |rankings| ==> RewardFound(e, rankings[i].nodeId, date, looks[i])
  }

  // ---- The steps ----

  /** The base records of one date, as a table. */
  type Day = map<NodeDate, Base>

  /** The base records of a date, sorted by node. */
  ghost function Listing(day: Day): seq<Base> {
    Sorting(day, BaseOrder)
  }

  ghost function RankingsOn(v: Derived, date: int): seq<Ranking> {
    Sorting(OnDate(v.rankings, date), RankingOrder)
  }

  /** The score of each listed node; missing looks score nothing. */
  function ScoreMap(records: seq<Base>, counted: seq<Look>, scored: seq<Look>): map<string, real> {
    if records == [] then map[]
    else
      var n := |records| - 1;
      ScoreMap(records[..n], counted, scored)[records[n].nodeId := if n < |scored| then PlacementScore(counted, scored[n]) else 0.0]
  }

  ghost function Scores(day: Day, looks: RankLooks): map<string, real> {
    ScoreMap(Listing(day), looks.counted, looks.scored)
  }

  ghost function Ranked(day: Day, registered: Registrations, looks: RankLooks): seq<Base> {
    RankedOrder(day.Values, Scores(day, looks), registered)
  }

  /** The group that the ranking row copies, accepted or not. */
  function CopiedGroup(nodeId: string, look: GroupLook): string {
    if look.Some? && !Blank(look.value.what.operatorGroupId) then look.value.what.operatorGroupId else nodeId
  }

  function CopiedGroups(order: seq<Base>, groups: seq<GroupLook>): (copied: seq<string>)
    ensures |copied| == |order|
  {
    seq(|order|, i requires 0 <= i < |order| => CopiedGroup(order[i].nodeId, if i < |groups| then groups[i] else None))
  }

  /** The ranking rows of a date, with the given copied groups. */
  ghost function RankingTable(day: Day, registered: Registrations, looks: RankLooks, groups: seq<string>): seq<Ranking> {
    var order := Ranked(day, registered, looks);
    if |groups| == |order| then RankRows(order, Scores(day, looks), groups) else []
  }

  ghost function NewRankings(day: Day, registered: Registrations, looks: RankLooks): seq<Ranking> {
    RankingTable(day, registered, looks, CopiedGroups(Ranked(day, registered, looks), looks.groups))
  }

  ghost function AllocationStep(pool: real, v: Derived, date: int, rankings: seq<Ranking>, rows: seq<Eligibility>): Derived {
    v.(allocations := Replaced(v.allocations, date, AllocationRows(pool, rankings, StandingsOf(rows)), AllocationKey))
  }

  ghost function EligibilityStep(pool: real, v: Derived, date: int, rankings: seq<Ranking>, looks: seq<RewardLook>): Derived {
    var rows := NewEligibility(rankings, looks);
    AllocationStep(pool, v.(eligibility := Replaced(v.eligibility, date, rows, EligibilityKey)), date, rankings, rows)
  }

  /** What the looks of a ranking step must be: the latest evidence of each node. */
  ghost predicate RankLooksFound(e: Evidence, day: Day, registered: Registrations, date: int, looks: RankLooks) {
    && PlacementsFound(e, Listing(day), date, looks.counted)
    && PlacementsFound(e, Listing(day), date, looks.scored)
    && GroupsFound(e, Ranked(day, registered, looks), date, looks.groups)
    && RewardsFound(e, NewRankings(day, registered, looks), date, looks.rewards)
  }

  ghost function RankingStep(pool: real, v: Derived, registered: Registrations, date: int, looks: RankLooks): Derived {
    var rows := NewRankings(OnDate(v.bases, date), registered, looks);
    EligibilityStep(pool, v.(rankings := Replaced(v.rankings, date, rows, RankingKey)), date, rows, looks.rewards)
  }

  // ---- Agreement: the stored rows of a date are what a rebuild would store ----

  /** The stored ranking rows of the date are those of the stored base records under the present
      evidence and registration times; only the copied groups may be older. */
  ghost predicate RankingAgrees(e: Evidence, registered: Registrations, v: Derived, date: int, looks: RankLooks, groups: seq<string>) {
    var day := OnDate(v.bases, date);
    && PlacementsFound(e, Listing(day), date, looks.counted)
    && PlacementsFound(e, Listing(day), date, looks.scored)
    && |groups| == |Ranked(day, registered, looks)|
    && OnDate(v.rankings, date) == FromRows(RankingTable(day, registered, looks, groups), RankingKey)
  }

  ghost function NewEligibility(rankings: seq<Ranking>, looks: seq<RewardLook>): seq<Eligibility> {
    EligibilityRows(rankings, Claims(rankings, looks))
  }

  /** The stored eligibility and allocation rows are those of the stored ranking for these looks. */
  ghost predicate RewardRows(pool: real, v: Derived, date: int, looks: seq<RewardLook>) {
    var rankings := RankingsOn(v, date);
    && OnDate(v.eligibility, date) == FromRows(NewEligibility(rankings, looks), EligibilityKey)
    && OnDate(v.allocations, date)
       == FromRows(AllocationRows(pool, rankings, StandingsOf(NewEligibility(rankings, looks))), AllocationKey)
  }

  ghost predicate RewardsAgree(pool: real, e: Evidence, v: Derived, date: int, looks: seq<RewardLook>) {
    RewardsFound(e, RankingsOn(v, date), date, looks) && RewardRows(pool, v, date, looks)
  }

  ghost predicate RankingCurrent(e: Evidence, registered: Registrations, v: Derived, date: int) {
    exists looks, groups :: RankingAgrees(e, registered, v, date, looks, groups)
  }

  ghost predicate RewardsCurrent(pool: real, e: Evidence, v: Derived, date: int) {
    exists looks :: RewardsAgree(pool, e, v, date, looks)
  }

  ghost predicate DateCurrent(pool: real, e: Evidence, registered: Registrations, v: Derived, date: int) {
    RankingCurrent(e, registered, v, date) && RewardsCurrent(pool, e, v, date)
  }

  // ---- Facts about the rows of a date ----

  lemma DayIsDistinct(v: Derived, date: int)
    requires KeyedBy(v.bases, BaseKey)
    ensures DistinctNodes(OnDate(v.bases, date).Values)
    ensures forall r :: r in OnDate(v.bases, date).Values ==> r.date == date
  {
    forall a, b | a in OnDate(v.bases, date).Values && b in OnDate(v.bases, date).Values && a.nodeId == b.nodeId
      ensures a == b
    {
      var ka :| ka in OnDate(v.bases, date) && OnDate(v.bases, date)[ka] == a;
      var kb :| kb in OnDate(v.bases, date) && OnDate(v.bases, date)[kb] == b;
    }
  }

  /** The rows of a date are ranked 1..n over exactly its base records. */
  lemma RankingTableIsRanked(day: Day, registered: Registrations, date: int, looks: RankLooks, groups: seq<string>)
    requires DistinctNodes(day.Values)
    requires forall r :: r in day.Values ==> r.date == date
    requires |groups| == |Ranked(day, registered, looks)|
    ensures var rows := RankingTable(day, registered, looks, groups);
      && RankedList(rows, date)
      && Ranked(day, registered, looks) == seq(|rows|, i requires 0 <= i < |rows| => rows[i].base)
      && (forall i :: 0 <= i < |rows| ==> rows[i].nodeId == rows[i].base.nodeId)
      && Enumerates(Ranked(day, registered, looks), day.Values)
  {
    hide RankedList;
    RankRowsAreRanked(day.Values, Scores(day, looks), registered, groups, date);
  }

  /** A ranked list is stored and listed back unchanged. */
  lemma RankedListKeeps(v: Derived, date: int, rows: seq<Ranking>)
    requires KeyedBy(v.rankings, RankingKey) && RankedList(rows, date)
    ensures var after := v.(rankings := Replaced(v.rankings, date, rows, RankingKey));
      && KeyedBy(after.rankings, RankingKey)
      && OnDate(after.rankings, date) == FromRows(rows, RankingKey)
      && RankingsOn(after, date) == rows
      && forall other :: other != date ==> OnDate(after.rankings, other) == OnDate(v.rankings, other)
  {
    RankedListSorted(rows, date);
    ReplacedDates(v.rankings, date, rows, RankingKey);
    ReplaceThenList(v.rankings, date, rows, RankingKey, RankingOrder);
  }

  lemma RankedListSorted(rows: seq<Ranking>, date: int)
    requires RankedList(rows, date)
    ensures DistinctKeys(rows, RankingKey) && Sorted(rows, RankingOrder)
    ensures forall i :: 0 <= i < |rows| ==> RankingKey(rows[i]).1 == date
    ensures forall a, b :: a in rows && b in rows && RankingOrder(a) == RankingOrder(b) ==> a == b
  {
    forall i, j | 0 <= i < j < |rows|
      ensures !KeyLess(RankingOrder(rows[j]), RankingOrder(rows[i]))
    {
      var a, b := rows[j], rows[i];
      KeyLessStep(Num(a.rank), [Text(a.nodeId)], Num(b.rank), [Text(b.nodeId)]);
      KeyLessStep(Num(a.date), [Num(a.rank), Text(a.nodeId)], Num(b.date), [Num(b.rank), Text(b.nodeId)]);
      assert [Num(a.rank), Text(a.nodeId)] == [Num(a.rank)] + [Text(a.nodeId)];
      assert [Num(b.rank), Text(b.nodeId)] == [Num(b.rank)] + [Text(b.nodeId)];
      assert RankingOrder(a) == [Num(a.date)] + [Num(a.rank), Text(a.nodeId)];
      assert RankingOrder(b) == [Num(b.date)] + [Num(b.rank), Text(b.nodeId)];
    }
    RankedColumnsSeparate();
  }

  lemma StoredRankingsRanked(v: Derived, date: int, rows: seq<Ranking>)
    requires RankedList(rows, date) && OnDate(v.rankings, date) == FromRows(rows, RankingKey)
    ensures RankingsOn(v, date) == rows
  {
    RankedListSorted(rows, date);
    FromRowsEnumerates(rows, RankingKey);
    ArrangeUnique(rows, rows, FromRows(rows, RankingKey).Values, RankingOrder);
  }
}
