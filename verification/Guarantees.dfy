/** What the agreement of the stored tables means for every store that a run can reach. */
module Guarantees {
  import opened Orders
  import opened Records
  import opened Texts
  import opened Counting
  import opened Tables
  import opened ProbeSummary
  import opened Qualification
  import opened RankingRules
  import opened AntiConcentration
  import opened Rewards
  import opened PortalState
  import opened Pipeline
  import opened Agreement
  import opened Snapshots
  import opened Portal
  import opened Views
  import opened Gradings
  import opened Reachable
  import opened PortalRuns

  // ---- Stored rows listed back ----

  /** Rows stored in rank order are listed in the order they were stored in. */
  lemma RowsByRankListed<V(!new)>(rows: seq<V>, key: V -> NodeDate, order: V -> Key, rank: V -> int, node: V -> string, date: int)
    requires DistinctKeys(rows, key)
    requires forall i :: 0 <= i < |rows| ==> order(rows[i]) == [Num(date), Num(rank(rows[i])), Text(node(rows[i]))]
    requires forall i, j :: 0 <= i < j < |rows| ==> rank(rows[i]) < rank(rows[j])
    ensures Sorting(FromRows(rows, key), order) == rows
  {
    FromRowsEnumerates(rows, key);
    RanksSort(rows, order, rank, node, date);
    ArrangeUnique(rows, rows, FromRows(rows, key).Values, order);
  }

  lemma RanksSort<V(!new)>(rows: seq<V>, order: V -> Key, rank: V -> int, node: V -> string, date: int)
    requires forall i :: 0 <= i < |rows| ==> order(rows[i]) == [Num(date), Num(rank(rows[i])), Text(node(rows[i]))]
    requires forall i, j :: 0 <= i < j < |rows| ==> rank(rows[i]) < rank(rows[j])
    ensures Sorted(rows, order)
    ensures forall a, b :: a in rows && b in rows && order(a) == order(b) ==> a == b
  {
    forall i, j | 0 <= i < j < |rows|
      ensures !KeyLess(order(rows[j]), order(rows[i])) && order(rows[i]) != order(rows[j])
    {
      EarlierRank(date, rank(rows[i]), node(rows[i]), rank(rows[j]), node(rows[j]));
    }
  }

  lemma EarlierRank(date: int, r1: int, n1: string, r2: int, n2: string)
    requires r1 < r2
    ensures !KeyLess([Num(date), Num(r2), Text(n2)], [Num(date), Num(r1), Text(n1)])
    ensures [Num(date), Num(r1), Text(n1)] != [Num(date), Num(r2), Text(n2)]
  {
    var (a, b) := ([Num(date), Num(r1), Text(n1)], [Num(date), Num(r2), Text(n2)]);
    KeyLessStep(Num(r2), [Text(n2)], Num(r1), [Text(n1)]);
    KeyLessStep(Num(date), b[1..], Num(date), a[1..]);
    assert b[1..] == [Num(r2)] + [Text(n2)] && a[1..] == [Num(r1)] + [Text(n1)];
    assert b == [Num(date)] + b[1..] && a == [Num(date)] + a[1..];
    assert a[1] != b[1];
  }

  ghost function EligibilityOn(v: Derived, date: int): seq<Eligibility> {
    Sorting(OnDate(v.eligibility, date), EligibilityOrder)
  }

  ghost function AllocationsOn(v: Derived, date: int): seq<Allocation> {
    Sorting(OnDate(v.allocations, date), AllocationOrder)
  }

  lemma StoredEligibilityListed(pool: real, v: Derived, date: int, looks: seq<RewardLook>)
    requires RankedList(RankingsOn(v, date), date) && RewardRows(pool, v, date, looks)
    ensures EligibilityOn(v, date) == NewEligibility(RankingsOn(v, date), looks)
  {
    hide Sorting, FromRows, AllocationRows, StandingsOf, Exclusion, ClaimOf;
    var rankings := RankingsOn(v, date);
    var rows := NewEligibility(rankings, looks);
    EligibilityRowsKeyed(rankings, Claims(rankings, looks), date);
    RowsByRankListed(rows, EligibilityKey, EligibilityOrder, (r: Eligibility) => r.rank, EligibilityNode, date);
  }

  lemma StoredAllocationsListed(pool: real, v: Derived, date: int, looks: seq<RewardLook>)
    requires RankedList(RankingsOn(v, date), date) && RewardRows(pool, v, date, looks)
    ensures AllocationsOn(v, date) == AllocationRows(pool, RankingsOn(v, date), StandingsOf(NewEligibility(RankingsOn(v, date), looks)))
  {
    hide Sorting, FromRows, AllocationRows, StandingsOf, NewEligibility;
    var rankings := RankingsOn(v, date);
    var standings := StandingsOf(NewEligibility(rankings, looks));
    AllocationRowsKeyed(pool, rankings, standings, date);
    AllocationRanks(pool, rankings, standings, date);
    RowsByRankListed(AllocationRows(pool, rankings, standings), AllocationKey, AllocationOrder, (r: Allocation) => r.rank, AllocationNode, date);
  }

  lemma AllocationRanks(pool: real, rankings: seq<Ranking>, standings: Standings, date: int)
    requires RankedList(rankings, date)
    ensures var rows := AllocationRows(pool, rankings, standings);
      forall i :: 0 <= i < |rows| ==> rows[i].rank == i + 1 && rows[i].date == date
  {
    hide AllocationRows;
    AllocationClosedForm(pool, rankings, standings, date);
  }

  // ---- Rewards of a date ----

  /** The eligibility row of each node of a ranked list is the one found by its id. */
  lemma {:induction false} StandingOfRow(rows: seq<Eligibility>, i: nat)
    requires i < |rows| && DistinctKeys(rows, EligibilityKey)
    requires forall k :: 0 <= k < |rows| ==> rows[k].date == rows[0].date
    ensures rows[i].nodeId in StandingsOf(rows) && StandingsOf(rows)[rows[i].nodeId] == rows[i]
  {
    var n := |rows| - 1;
    if i < n {
      StandingOfRow(rows[..n], i);
      assert EligibilityKey(rows[i]) != EligibilityKey(rows[n]);
    }
  }

  /** The first ranked node is rewarded. */
  lemma FirstIsRewarded(rankings: seq<Ranking>, looks: seq<RewardLook>, date: int)
    requires RankedList(rankings, date) && rankings != []
    ensures Rewarded(StandingsOf(NewEligibility(rankings, looks)), rankings[0].nodeId)
  {
    hide StandingsOf, ClaimOf;
    var claims := Claims(rankings, looks);
    FilterGuarantees(claims, []);
    EligibilityRowsKeyed(rankings, claims, date);
    StandingOfRow(NewEligibility(rankings, looks), 0);
  }

  /** In every reachable store and for every date: the stored allocations are those of the stored
      ranking and eligibility; together with the pools of bands in which nobody is rewarded and the
      reserve they make up the nominal pool; and whenever anyone is ranked, at least a quarter of the
      distributed pool is paid. */
  lemma ReachableRewardsConserved(c: Config, seed: map<string, Node>, run: seq<Event>, date: int)
    requires SeedOk(seed) && Lawful(c, seed, run)
    ensures var v := After(c, seed, run).mem.derived;
      var rankings, standings, rows := RankingsOn(v, date), StandingsOf(EligibilityOn(v, date)), AllocationsOn(v, date);
      && rows == AllocationRows(c.nominalPool, rankings, standings)
      && Paid(rows)
       + Unclaimed(c.nominalPool, rankings, standings, BANDS[0]) + Unclaimed(c.nominalPool, rankings, standings, BANDS[1])
       + Unclaimed(c.nominalPool, rankings, standings, BANDS[2]) + Unclaimed(c.nominalPool, rankings, standings, BANDS[3])
       + (c.nominalPool - Distributed(c.nominalPool, |rankings|)) == c.nominalPool
      && PartDistributed(|rankings|, ParticipationRate(|rankings|)) && Distributed(c.nominalPool, |rankings|) == c.nominalPool * ParticipationRate(|rankings|)
      && (rankings != [] && c.nominalPool >= 0.0 ==> Paid(rows) >= Distributed(c.nominalPool, |rankings|) * 0.25)
  {
    hide After, Sorting, AllocationRows, StandingsOf, Unclaimed, Paid, NewEligibility, Lawful, PartDistributed, Distributed, ParticipationRate, SavedOk, StateOk;
    var v := After(c, seed, run).mem.derived;
    RunOk(c, seed, run);
    var looks := DateRanked(c, seed, After(c, seed, run).mem, date);
    var rankings := RankingsOn(v, date);
    StoredEligibilityListed(c.nominalPool, v, date, looks);
    StoredAllocationsListed(c.nominalPool, v, date, looks);
    DistributedPart(c.nominalPool, |rankings|);
    RewardsConserved(c.nominalPool, rankings, StandingsOf(NewEligibility(rankings, looks)));
    if rankings != [] && c.nominalPool >= 0.0 {
      FirstIsRewarded(rankings, looks, date);
      QuarterAlwaysPaid(c.nominalPool, rankings, StandingsOf(NewEligibility(rankings, looks)), date);
    }
  }

  /** The second row is not rewarded, or the first is and its band's share per rewarded node is no
      smaller (cross-multiplied). */
  predicate ShareNoLess(a: Allocation, b: Allocation) {
    b.eligible ==> a.eligible && a.bandShare * b.bandEligible as real >= b.bandShare * a.bandEligible as real
  }

  /** In every reachable store and for every date: of any two stored allocations the first pays no less
      exactly when the second node is not rewarded, or the first is and its band's share per rewarded
      node is no smaller. */
  lemma ReachablePaidNoLessIff(c: Config, seed: map<string, Node>, run: seq<Event>, date: int, i: nat, j: nat)
    requires SeedOk(seed) && Lawful(c, seed, run) && c.nominalPool > 0.0
    requires var rows := AllocationsOn(After(c, seed, run).mem.derived, date); i < |rows| && j < |rows|
    ensures var rows := AllocationsOn(After(c, seed, run).mem.derived, date);
      rows[i].reward >= rows[j].reward <==> ShareNoLess(rows[i], rows[j])
  {
    hide After, StateOk, SavedOk, AllocationsOn, Lawful, ShareNoLess;
    RunOk(c, seed, run);
    StoredRowsPaidNoLessIff(c, seed, After(c, seed, run).mem, date, i, j);
  }

  lemma StoredRowsPaidNoLessIff(c: Config, seed: map<string, Node>, s: State, date: int, i: nat, j: nat)
    requires StateOk(c, seed, s) && c.nominalPool > 0.0
    requires i < |AllocationsOn(s.derived, date)| && j < |AllocationsOn(s.derived, date)|
    ensures var rows := AllocationsOn(s.derived, date);
      rows[i].reward >= rows[j].reward <==> ShareNoLess(rows[i], rows[j])
  {
    hide StateOk, AllocationsOn, AllocationRows, StandingsOf, NewEligibility, ShareNoLess, RewardRows, Sorting;
    var looks := DateRanked(c, seed, s, date);
    var rankings := RankingsOn(s.derived, date);
    StoredAllocationsListed(c.nominalPool, s.derived, date, looks);
    RowsPaidNoLessIff(c.nominalPool, rankings, StandingsOf(NewEligibility(rankings, looks)), date, i, j);
  }

  lemma RowsPaidNoLessIff(pool: real, rankings: seq<Ranking>, standings: Standings, date: int, i: nat, j: nat)
    requires RankedList(rankings, date) && pool > 0.0
    requires i < |AllocationRows(pool, rankings, standings)| && j < |AllocationRows(pool, rankings, standings)|
    ensures var rows := AllocationRows(pool, rankings, standings);
      rows[i].reward >= rows[j].reward <==> ShareNoLess(rows[i], rows[j])
  {
    hide AllocationRows, EligibleCount, Distributed, Rewarded, BandOf;
    AllocationClosedForm(pool, rankings, standings, date);
    PaidNoLessIff(pool, rankings, standings, date, i, j);
  }

  lemma DateRanked(c: Config, seed: map<string, Node>, s: State, date: int) returns (looks: seq<RewardLook>)
    requires StateOk(c, seed, s)
    ensures RankedList(RankingsOn(s.derived, date), date) && RowsMatch(s.derived, date)
    ensures RewardRows(c.nominalPool, s.derived, date, looks)
  {
    hide WellFormed, SummaryFresh, RankingFresh, RewardsFresh, GradesOk, RankingStands, RewardRows, RankedList, Sorting;
    BasesKeyed(seed, s);
    StandingRowsMatch(RegistrationsOf(s.nodes), s.derived, date);
    assert RewardsFollow(c.nominalPool, s.derived, date);
    looks :| RewardRows(c.nominalPool, s.derived, date, looks);
  }

  /** In every reachable store and for every date: there are looks - the latest evidence of each node,
      if time texts that name the date denote moments of it - such that a ranked node is rewarded exactly when no
      higher-ranked node, rewarded or not, overlaps with it, and every row says why in terms of that
      evidence: accepted groups and control planes, and domains. */
  lemma ReachableEligibility(c: Config, seed: map<string, Node>, run: seq<Event>, date: int) returns (looks: seq<RewardLook>)
    requires SeedOk(seed) && Lawful(c, seed, run)
    ensures var s := After(c, seed, run).mem;
      var rankings, rows := RankingsOn(s.derived, date), EligibilityOn(s.derived, date);
      var claims := Claims(rankings, looks);
      && (RewardEvidenceAligned(s.evidence, date) ==> RewardsFound(s.evidence, rankings, date, looks))
      && |rows| == |rankings| == |looks| && rows == EligibilityRows(rankings, claims)
      && forall i :: 0 <= i < |rows| ==>
           && rows[i].nodeId == rankings[i].nodeId && rows[i].rank == i + 1
           && rows[i].exclusion == Exclusion(claims, i)
           && (rows[i].eligible <==> rows[i].exclusion == NoReason)
           && (rows[i].eligible <==> forall j :: 0 <= j < i ==> !Overlap(claims[j], claims[i]))
           && RowInEvidence(rankings, looks, rows[i], i)
  {
    hide After, Sorting, Lawful, RewardsFound, EligibilityRows, Claims, RewardEvidenceAligned, RowInEvidence, StateOk, SavedOk, Exclusion, Overlap, EligibilityOn, RowsMatch;
    RunOk(c, seed, run);
    var s := After(c, seed, run).mem;
    var _ := DateRanked(c, seed, s, date);
    looks := EvidenceOfRows(c, seed, s, date);
    var rankings := RankingsOn(s.derived, date);
    EligibilityMeaning(rankings, looks, date);
    forall i | 0 <= i < |rankings|
      ensures RowInEvidence(rankings, looks, EligibilityRows(rankings, Claims(rankings, looks))[i], i)
    {
      RowSaysWhy(rankings, looks, i);
    }
  }

  lemma EvidenceOfRows(c: Config, seed: map<string, Node>, s: State, date: int) returns (looks: seq<RewardLook>)
    requires StateOk(c, seed, s)
    ensures var rankings := RankingsOn(s.derived, date);
      && (RewardEvidenceAligned(s.evidence, date) ==> RewardsFound(s.evidence, rankings, date, looks))
      && |looks| == |rankings| && EligibilityOn(s.derived, date) == EligibilityRows(rankings, Claims(rankings, looks))
  {
    hide Sorting, RewardRows, RankedList, StateOk, RewardEvidenceAligned, ClaimOf, EligibilityOn, RewardFound;
    var rankings := RankingsOn(s.derived, date);
    var any := DateRanked(c, seed, s, date);
    if RewardEvidenceAligned(s.evidence, date) {
      looks := RewardsFoundOn(c, seed, s, date);
    } else {
      looks := seq(|rankings|, i requires 0 <= i < |rankings| => LookAt(any, i));
      assert Claims(rankings, looks) == Claims(rankings, any);
    }
    StoredEligibilityListed(c.nominalPool, s.derived, date, if RewardEvidenceAligned(s.evidence, date) then looks else any);
  }

  lemma RewardsFoundOn(c: Config, seed: map<string, Node>, s: State, date: int) returns (looks: seq<RewardLook>)
    requires StateOk(c, seed, s) && RewardEvidenceAligned(s.evidence, date)
    ensures RewardsFound(s.evidence, RankingsOn(s.derived, date), date, looks) && RewardRows(c.nominalPool, s.derived, date, looks)
  {
    hide WellFormed, SummaryFresh, RankingFresh, RewardsFollow, GradesOk, RankingStands, RewardRows, RewardsFound, Sorting, RewardEvidenceAligned;
    assert RewardsFresh(c, s, date);
    looks :| RewardsAgree(c.nominalPool, s.evidence, s.derived, date, looks);
  }

  lemma EligibilityMeaning(rankings: seq<Ranking>, looks: seq<RewardLook>, date: int)
    requires RankedList(rankings, date)
    ensures var rows, claims := NewEligibility(rankings, looks), Claims(rankings, looks);
      && |rows| == |rankings|
      && forall i :: 0 <= i < |rows| ==>
           && rows[i].nodeId == rankings[i].nodeId && rows[i].rank == i + 1
           && rows[i].exclusion == Exclusion(claims, i)
           && (rows[i].eligible <==> rows[i].exclusion == NoReason)
           && (rows[i].eligible <==> forall j :: 0 <= j < i ==> !Overlap(claims[j], claims[i]))
  {
    hide ClaimOf, Exclusion, Overlap;
    var claims := Claims(rankings, looks);
    forall i | 0 <= i < |rankings|
      ensures Eligible(claims, i) <==> forall j :: 0 <= j < i ==> !Overlap(claims[j], claims[i])
    {
      EligibleIffNoHigherOverlap(claims, i);
    }
  }

  // ---- The ranking of a date ----

  function EntryOfRow(r: Ranking, registered: Registrations): Entry {
    Entry(r.base, r.decentralization, if r.nodeId in registered then registered[r.nodeId] else None)
  }

  lemma {:induction false} ScoresAreLevels(records: seq<Base>, counted: seq<Look>, scored: seq<Look>)
    ensures forall n :: n in ScoreMap(records, counted, scored) ==> Level(ScoreMap(records, counted, scored)[n])
  {
    hide Count, InCountry, OnInfra, Blank;
    if records != [] {
      ScoresAreLevels(records[..|records| - 1], counted, scored);
    }
  }

  lemma StandingOrder(registered: Registrations, v: Derived, date: int)
    requires RankingStands(registered, v, date) && KeyedBy(v.bases, BaseKey)
    ensures var rows := RankingsOn(v, date);
      && (forall i :: 0 <= i < |rows| ==> Level(rows[i].decentralization) && rows[i].totalScore == TotalScore(rows[i].base.total, rows[i].decentralization))
      && (forall i, j :: 0 <= i < j < |rows| ==> RankBefore(EntryOfRow(rows[i], registered), EntryOfRow(rows[j], registered)))
  {
    hide RankingAgrees, RankBefore, Level, TotalScore, Sorting;
    var e :| RankingCurrent(e, registered, v, date);
    var looks, groups :| RankingAgrees(e, registered, v, date, looks, groups);
    StoredIsTable(e, registered, v, date, looks, groups);
    var day := OnDate(v.bases, date);
    ScoresAreLevels(Listing(day), looks.counted, looks.scored);
    TableOrder(day, registered, looks, groups, date);
  }

  lemma StoredIsTable(e: Evidence, registered: Registrations, v: Derived, date: int, looks: RankLooks, groups: seq<string>)
    requires RankingAgrees(e, registered, v, date, looks, groups) && KeyedBy(v.bases, BaseKey)
    ensures var day := OnDate(v.bases, date);
      && RankingsOn(v, date) == RankingTable(day, registered, looks, groups)
      && |groups| == |Ranked(day, registered, looks)| && DistinctNodes(day.Values)
  {
    hide Ranked, RankingTable, Sorting, PlacementsFound, FromRows, RankedList, Enumerates, DistinctNodes;
    var day := OnDate(v.bases, date);
    DayIsDistinct(v, date);
    RankingTableIsRanked(day, registered, date, looks, groups);
    StoredRankingsRanked(v, date, RankingTable(day, registered, looks, groups));
  }

  lemma TableOrder(day: Day, registered: Registrations, looks: RankLooks, groups: seq<string>, date: int)
    requires |groups| == |Ranked(day, registered, looks)| && DistinctNodes(day.Values)
    requires forall n :: n in Scores(day, looks) ==> Level(Scores(day, looks)[n])
    ensures var rows := RankingTable(day, registered, looks, groups);
      && (forall i :: 0 <= i < |rows| ==> Level(rows[i].decentralization) && rows[i].totalScore == TotalScore(rows[i].base.total, rows[i].decentralization))
      && (forall i, j :: 0 <= i < j < |rows| ==> RankBefore(EntryOfRow(rows[i], registered), EntryOfRow(rows[j], registered)))
  {
    hide RankBefore, TotalScore, DistinctNodes, RankedOrder, Scores;
    var rows, order := RankingTable(day, registered, looks, groups), Ranked(day, registered, looks);
    forall i, j | 0 <= i < j < |rows|
      ensures RankBefore(EntryOfRow(rows[i], registered), EntryOfRow(rows[j], registered))
    {
      RankedOrderObeysComparison(day.Values, Scores(day, looks), registered, i, j);
    }
  }

  function RegisteredAt(s: State, nodeId: string): Option<int> {
    if nodeId in s.nodes then s.nodes[nodeId].registeredAt else None
  }

  predicate SameScores(a: Ranking, b: Ranking) {
    && a.decentralization == b.decentralization && a.base.total == b.base.total
    && a.base.finalization == b.base.finalization && a.base.availability == b.base.availability
  }

  /** The scores decide in this order, the larger first; where all tie, the earlier registration, none being
      last; and where that ties too, the node id that comes first as a text. */
  ghost predicate RightlyAbove(s: State, a: Ranking, b: Ranking) {
    && a.decentralization >= b.decentralization
    && (a.decentralization == b.decentralization ==> a.base.total >= b.base.total)
    && (a.decentralization == b.decentralization && a.base.total == b.base.total ==> a.base.finalization >= b.base.finalization)
    && (a.decentralization == b.decentralization && a.base.total == b.base.total && a.base.finalization == b.base.finalization
        ==> a.base.availability >= b.base.availability)
    && (SameScores(a, b) && RegisteredAt(s, b.nodeId).Some? ==>
          RegisteredAt(s, a.nodeId).Some? && RegisteredAt(s, a.nodeId).value <= RegisteredAt(s, b.nodeId).value)
    && (SameScores(a, b) && RegisteredAt(s, a.nodeId) == RegisteredAt(s, b.nodeId) ==> TextBefore(a.nodeId, b.nodeId))
  }

  /** In every reachable store and for every date, whatever the time texts: ranks are 1..n over exactly
      the nodes with a base record, every total is 0.7 of the base score and 0.3 of the points and lies
      between 47.74 and 58, every row precedes the lower ones in the portal's comparison and by
      decentralization first, and is rightly above them. */
  lemma ReachableRanking(c: Config, seed: map<string, Node>, run: seq<Event>, date: int)
    requires SeedOk(seed) && Lawful(c, seed, run)
    ensures var s := After(c, seed, run).mem;
      var rows, registered := RankingsOn(s.derived, date), RegistrationsOf(s.nodes);
      && RankedList(rows, date)
      && Enumerates(BasesOf(rows), OnDate(s.derived.bases, date).Values)
      && (forall i :: 0 <= i < |rows| ==>
           && 47.74 <= rows[i].totalScore <= 58.0
           && rows[i].totalScore == 0.7 * rows[i].base.total + 0.3 * rows[i].decentralization
           && rows[i].decentralization in {0.0, 10.0, 20.0, 30.0})
      && (forall i, j :: 0 <= i < j < |rows| ==>
           && RankBefore(EntryOfRow(rows[i], registered), EntryOfRow(rows[j], registered))
           && DominanceBefore(EntryOfRow(rows[i], registered), EntryOfRow(rows[j], registered))
           && RightlyAbove(s, rows[i], rows[j]))
  {
    hide After, Sorting, Lawful, RankBefore, DominanceBefore, RankedList, Enumerates, RightlyAbove, StateOk, SavedOk;
    RunOk(c, seed, run);
    var s := After(c, seed, run).mem;
    RankingInOrder(c, seed, s, date);
    TotalsAddUp(c, seed, s, date);
    forall i, j | 0 <= i < j < |RankingsOn(s.derived, date)|
      ensures RightlyAbove(s, RankingsOn(s.derived, date)[i], RankingsOn(s.derived, date)[j])
    {
      RowsRightlyAbove(c, seed, s, date, i, j);
    }
  }

  lemma RowsRightlyAbove(c: Config, seed: map<string, Node>, s: State, date: int, i: nat, j: nat)
    requires StateOk(c, seed, s) && i < j < |RankingsOn(s.derived, date)|
    ensures RightlyAbove(s, RankingsOn(s.derived, date)[i], RankingsOn(s.derived, date)[j])
  {
    hide Sorting, RankingStands, WellFormed, SummaryFresh, RankingFresh, RewardsFresh, RewardsFollow, RankBefore, InScoreWindow, TotalScore, TextBefore, GradesOk;
    var rows, registered := RankingsOn(s.derived, date), RegistrationsOf(s.nodes);
    var (a, b) := (EntryOfRow(rows[i], registered), EntryOfRow(rows[j], registered));
    RankingInOrder(c, seed, s, date);
    StandingScores(c, seed, s, date);
    ScoresInNumbers(a, b);
    BaseOfSameNode(c, seed, s, date);
    if SameScores(rows[i], rows[j]) {
      TiesInNumbers(a, b);
    }
  }

  lemma TotalsAddUp(c: Config, seed: map<string, Node>, s: State, date: int)
    requires StateOk(c, seed, s)
    ensures var rows := RankingsOn(s.derived, date);
      forall i :: 0 <= i < |rows| ==>
        && rows[i].totalScore == 0.7 * rows[i].base.total + 0.3 * rows[i].decentralization
        && rows[i].decentralization in {0.0, 10.0, 20.0, 30.0}
  {
    hide Sorting, WellFormed, ViewsOk, InScoreWindow, TotalScore, StateOk;
    var rows, registered := RankingsOn(s.derived, date), RegistrationsOf(s.nodes);
    StandingScores(c, seed, s, date);
    forall i | 0 <= i < |rows|
      ensures rows[i].totalScore == 0.7 * rows[i].base.total + 0.3 * rows[i].decentralization
    {
      DecentralizationDominates(EntryOfRow(rows[i], registered), EntryOfRow(rows[i], registered));
    }
  }

  lemma StandingScores(c: Config, seed: map<string, Node>, s: State, date: int)
    requires StateOk(c, seed, s)
    ensures var rows, registered := RankingsOn(s.derived, date), RegistrationsOf(s.nodes);
      forall i :: 0 <= i < |rows| ==>
        && Rankable(EntryOfRow(rows[i], registered))
        && rows[i].totalScore == TotalScore(rows[i].base.total, rows[i].decentralization)
  {
    hide Sorting, RankingStands, WellFormed, SummaryFresh, RankingFresh, RewardsFresh, RewardsFollow, RankBefore, InScoreWindow, TotalScore, GradesOk, Level, RankedList;
    var registered := RegistrationsOf(s.nodes);
    BasesKeyed(seed, s);
    assert RankingStands(registered, s.derived, date);
    StandingRowsMatch(registered, s.derived, date);
    StandingOrder(registered, s.derived, date);
    RankedInWindow(s, date);
  }

  lemma BaseOfSameNode(c: Config, seed: map<string, Node>, s: State, date: int)
    requires StateOk(c, seed, s)
    ensures forall i :: 0 <= i < |RankingsOn(s.derived, date)| ==> RankingsOn(s.derived, date)[i].base.nodeId == RankingsOn(s.derived, date)[i].nodeId
  {
    hide Sorting, RankingStands, WellFormed, SummaryFresh, RankingFresh, RewardsFresh, RewardsFollow, GradesOk, RankedList;
    BasesKeyed(seed, s);
    assert RankingStands(RegistrationsOf(s.nodes), s.derived, date);
    StandingRowsMatch(RegistrationsOf(s.nodes), s.derived, date);
  }

  lemma RankingInOrder(c: Config, seed: map<string, Node>, s: State, date: int)
    requires StateOk(c, seed, s)
    ensures var rows, registered := RankingsOn(s.derived, date), RegistrationsOf(s.nodes);
      && RankedList(rows, date)
      && Enumerates(BasesOf(rows), OnDate(s.derived.bases, date).Values)
      && (forall i :: 0 <= i < |rows| ==> 47.74 <= rows[i].totalScore <= 58.0)
      && (forall i, j :: 0 <= i < j < |rows| ==>
           && RankBefore(EntryOfRow(rows[i], registered), EntryOfRow(rows[j], registered))
           && DominanceBefore(EntryOfRow(rows[i], registered), EntryOfRow(rows[j], registered)))
  {
    hide Sorting, RankBefore, DominanceBefore, RankedList, Enumerates, RankingStands, WellFormed, GradesOk, TotalScore;
    hide SummaryFresh, RankingFresh, RewardsFresh, RewardsFollow, Level, InScoreWindow;
    var rows, registered := RankingsOn(s.derived, date), RegistrationsOf(s.nodes);
    BasesKeyed(seed, s);
    assert RankingStands(registered, s.derived, date);
    StandingRowsMatch(registered, s.derived, date);
    StandingOrder(registered, s.derived, date);
    RankedInWindow(s, date);
    forall i, j | 0 <= i < |rows| && 0 <= j < |rows|
      ensures RankBefore(EntryOfRow(rows[i], registered), EntryOfRow(rows[j], registered))
          ==> DominanceBefore(EntryOfRow(rows[i], registered), EntryOfRow(rows[j], registered))
      ensures 47.74 <= TotalScore(rows[i].base.total, rows[i].decentralization) <= 58.0
    {
      DecentralizationDominates(EntryOfRow(rows[i], registered), EntryOfRow(rows[j], registered));
    }
  }

  lemma RankedInWindow(s: State, date: int)
    requires GradesOk(s.nodes, s.derived) && RowsMatch(s.derived, date)
    ensures forall i :: 0 <= i < |RankingsOn(s.derived, date)| ==> InScoreWindow(RankingsOn(s.derived, date)[i].base)
  {
    hide Sorting, RankedList, InScoreWindow, GradedAs, BaseOf, CountsOrdered;
    var rows := RankingsOn(s.derived, date);
    forall i | 0 <= i < |rows|
      ensures InScoreWindow(rows[i].base)
    {
      assert BasesOf(rows)[i] in OnDate(s.derived.bases, date).Values;
      var k :| k in OnDate(s.derived.bases, date) && OnDate(s.derived.bases, date)[k] == rows[i].base;
      assert InScoreWindow(s.derived.bases[k]);
    }
  }

  // ---- Decentralization points ----

  lemma {:induction false} ScoreOfRecord(records: seq<Base>, counted: seq<Look>, scored: seq<Look>, k: nat)
    requires k < |records| == |scored|
    requires forall i, j :: 0 <= i < j < |records| ==> records[i].nodeId != records[j].nodeId
    ensures records[k].nodeId in ScoreMap(records, counted, scored)
    ensures ScoreMap(records, counted, scored)[records[k].nodeId] == PlacementScore(counted, scored[k])
  {
    hide PlacementScore;
    var n := |records| - 1;
    if k < n {
      ScoreOfFront(records, counted, scored, k);
    }
  }

  lemma {:induction false} ScoreOfFront(records: seq<Base>, counted: seq<Look>, scored: seq<Look>, k: nat)
    requires k < |records| <= |scored|
    requires forall i, j :: 0 <= i < j < |records| ==> records[i].nodeId != records[j].nodeId
    ensures records[k].nodeId in ScoreMap(records, counted, scored)
    ensures ScoreMap(records, counted, scored)[records[k].nodeId] == PlacementScore(counted, scored[k])
    decreases |records|
  {
    hide PlacementScore;
    var n := |records| - 1;
    if k < n {
      ScoreOfFront(records[..n], counted, scored, k);
    }
  }

  /** The points of each ranked node in the scores of a date. */
  lemma PointsPairwise(e: Evidence, day: Day, date: int, looks: RankLooks)
    requires DistinctNodes(day.Values) && looks.counted == looks.scored
    requires PlacementsFound(e, Listing(day), date, looks.counted)
    ensures var records := Listing(day);
      |looks.counted| == |records| && forall k :: 0 <= k < |records| ==>
        && records[k].nodeId in Scores(day, looks)
        && Scores(day, looks)[records[k].nodeId] == PlacementScore(looks.counted, looks.counted[k])
        && (Scores(day, looks)[records[k].nodeId] == PairwiseScore(looks.counted, k) <==> BarsHarmless(looks.counted, k))
  {
    hide PlacementScore, PairwiseScore, ScoreMap, IsLatest, BarsHarmless;
    var records := Listing(day);
    forall k | 0 <= k < |records|
      ensures records[k].nodeId in Scores(day, looks)
      ensures Scores(day, looks)[records[k].nodeId] == PlacementScore(looks.counted, looks.counted[k])
      ensures Scores(day, looks)[records[k].nodeId] == PairwiseScore(looks.counted, k) <==> BarsHarmless(looks.counted, k)
    {
      ScoreOfRecord(records, looks.counted, looks.scored, k);
      ScoresArePairwiseIff(looks.counted, k);
    }
  }

  lemma RowCarriesPoints(e: Evidence, registered: Registrations, v: Derived, date: int, looks: RankLooks, groups: seq<string>)
    requires RankingAgrees(e, registered, v, date, looks, groups) && TablesKeyed(v)
    ensures forall k :: k in OnDate(v.rankings, date) && k.0 in Scores(OnDate(v.bases, date), looks) ==>
      v.rankings[k].decentralization == Scores(OnDate(v.bases, date), looks)[k.0]
  {
    hide Scores, RankedOrder, PlacementsFound, Sorting, DistinctNodes;
    var day := OnDate(v.bases, date);
    StoredIsTable(e, registered, v, date, looks, groups);
    var rows := RankingTable(day, registered, looks, groups);
    forall k | k in OnDate(v.rankings, date) && k.0 in Scores(day, looks)
      ensures v.rankings[k].decentralization == Scores(day, looks)[k.0]
    {
      assert OnDate(v.rankings, date)[k] == v.rankings[k] && RankingKey(v.rankings[k]) == k;
      ListedRow(OnDate(v.rankings, date), RankingOrder, v.rankings[k]);
      var i :| 0 <= i < |rows| && rows[i] == v.rankings[k];
    }
  }

  /** In every reachable store, for a date on which placement times are aligned and differ for each
      node: the points of a ranked node are pairwise over the latest placements of the ranked nodes
      exactly when no bar in a provider id makes it lose points. */
  lemma ReachablePoints(c: Config, seed: map<string, Node>, run: seq<Event>, date: int) returns (looks: seq<Look>)
    requires SeedOk(seed) && Lawful(c, seed, run)
    requires var e := After(c, seed, run).mem.evidence; AlignedOn(e.placements, date) && Determined(e.placements)
    ensures PointsShown(After(c, seed, run).mem, date, looks)
  {
    hide After, Lawful, StateOk, PointsShown, AlignedOn, Determined, SavedOk;
    RunOk(c, seed, run);
    looks := PointsOnDate(c, seed, After(c, seed, run).mem, date);
  }

  /** The stored points of each base record's node, over the latest placements. */
  ghost predicate PointsShown(s: State, date: int, looks: seq<Look>) {
    var records := Listing(OnDate(s.derived.bases, date));
    && PlacementsFound(s.evidence, records, date, looks) && |looks| == |records|
    && forall k :: 0 <= k < |records| ==>
         && (records[k].nodeId, date) in s.derived.rankings
         && (s.derived.rankings[(records[k].nodeId, date)].decentralization == PairwiseScore(looks, k) <==> BarsHarmless(looks, k))
  }

  lemma PointsOnDate(c: Config, seed: map<string, Node>, s: State, date: int) returns (looks: seq<Look>)
    requires StateOk(c, seed, s)
    requires AlignedOn(s.evidence.placements, date) && Determined(s.evidence.placements)
    ensures PointsShown(s, date, looks)
  {
    hide PlacementsFound, PairwiseScore, PlacementScore, BarsHarmless, AlignedOn, Determined, Sorting, Scores, DistinctNodes, RowsMatch, SummaryFresh, RewardsFresh, RewardsFollow, GradesOk;
    hide RankingStands, EventsOk, LogsOk, EvidenceOk, NodesOk, RankingAgrees, Grounded;
    KeyedTables(s.derived, seed.Keys);
    DayIsDistinct(s.derived, date);
    var v, day, registered := s.derived, OnDate(s.derived.bases, date), RegistrationsOf(s.nodes);
    StandingRowsMatch(registered, v, date);
    assert RankingFresh(s, date);
    var found, groups :| RankingAgrees(s.evidence, registered, v, date, found, groups);
    AgreedLooks(s.evidence, registered, v, date, found, groups);
    RowCarriesPoints(s.evidence, registered, v, date, found, groups);
    PointsPairwise(s.evidence, day, date, found);
    looks := found.counted;
    forall k | 0 <= k < |Listing(day)|
      ensures (Listing(day)[k].nodeId, date) in OnDate(v.rankings, date)
    {
      ListedBaseKey(v, date, k);
      RankedIffBase(v, (Listing(day)[k].nodeId, date));
    }
  }

  lemma ListedBaseKey(v: Derived, date: int, k: nat)
    requires KeyedBy(v.bases, BaseKey) && k < |Listing(OnDate(v.bases, date))|
    ensures (Listing(OnDate(v.bases, date))[k].nodeId, date) in v.bases
  {
    var day := OnDate(v.bases, date);
    BackToTable(day, BaseOrder, k);
    var j :| j in day && day[j] == Listing(day)[k];
    assert BaseKey(v.bases[j]) == j;
  }

  lemma AgreedLooks(e: Evidence, registered: Registrations, v: Derived, date: int, looks: RankLooks, groups: seq<string>)
    requires RankingAgrees(e, registered, v, date, looks, groups) && Determined(e.placements)
    ensures PlacementsFound(e, Listing(OnDate(v.bases, date)), date, looks.counted) && looks.counted == looks.scored
  {
    hide PlacementsFound, Sorting, RankingTable, Determined;
    SamePlacements(e, Listing(OnDate(v.bases, date)), date, looks.counted, looks.scored);
  }

  // ---- Which rows exist ----

  lemma RankedIffBase(v: Derived, k: NodeDate)
    requires TablesKeyed(v) && RowsMatch(v, k.1)
    ensures k in v.rankings <==> k in v.bases
  {
    hide Sorting, RankedList;
    var rows := RankingsOn(v, k.1);
    var day := OnDate(v.bases, k.1);
    if k in v.rankings {
      assert OnDate(v.rankings, k.1)[k] == v.rankings[k];
      ListedRow(OnDate(v.rankings, k.1), RankingOrder, v.rankings[k]);
      var i :| 0 <= i < |rows| && rows[i] == v.rankings[k];
      assert BasesOf(rows)[i] in day.Values;
      var j :| j in day && day[j] == rows[i].base;
      assert BaseKey(v.bases[j]) == j && RankingKey(v.rankings[k]) == k;
    }
    if k in v.bases {
      assert day[k] == v.bases[k] && BaseKey(v.bases[k]) == k;
      assert day[k] in day.Values;
      var i :| 0 <= i < |rows| && BasesOf(rows)[i] == v.bases[k];
      BackToTable(OnDate(v.rankings, k.1), RankingOrder, i);
      var j :| j in OnDate(v.rankings, k.1) && OnDate(v.rankings, k.1)[j] == rows[i];
      assert RankingKey(v.rankings[j]) == j;
    }
  }

  lemma BackToTable<K(!new), V(!new)>(m: map<K, V>, order: V -> Key, i: nat)
    requires i < |Sorting(m, order)|
    ensures Sorting(m, order)[i] in m.Values
  {
  }

  lemma EligibilityIffRanked(pool: real, v: Derived, k: NodeDate, looks: seq<RewardLook>)
    requires TablesKeyed(v) && RankedList(RankingsOn(v, k.1), k.1) && RewardRows(pool, v, k.1, looks)
    ensures k in v.eligibility <==> k in v.rankings
    ensures k in v.eligibility ==> (v.eligibility[k].eligible <==> v.eligibility[k].exclusion == NoReason)
    ensures k in v.eligibility ==> v.eligibility[k].exclusion in {NoReason, SameOperatorGroup, SameRegistrableDomain, SameSharedControlPlane}
  {
    hide Sorting, AllocationRows, StandingsOf, ClaimOf, Overlap;
    var rankings := RankingsOn(v, k.1);
    var rows := NewEligibility(rankings, looks);
    EligibilityRowsKeyed(rankings, Claims(rankings, looks), k.1);
    FromRowsHolds(rows, EligibilityKey);
    if k in v.eligibility {
      assert OnDate(v.eligibility, k.1)[k] == v.eligibility[k];
      var i :| 0 <= i < |rows| && rows[i] == v.eligibility[k];
      BackToTable(OnDate(v.rankings, k.1), RankingOrder, i);
      var j :| j in OnDate(v.rankings, k.1) && OnDate(v.rankings, k.1)[j] == rankings[i];
      assert RankingKey(v.rankings[j]) == j && EligibilityKey(v.eligibility[k]) == k;
    }
    if k in v.rankings {
      assert OnDate(v.rankings, k.1)[k] == v.rankings[k] && RankingKey(v.rankings[k]) == k;
      ListedRow(OnDate(v.rankings, k.1), RankingOrder, v.rankings[k]);
      var i :| 0 <= i < |rankings| && rankings[i] == v.rankings[k];
      assert EligibilityKey(rows[i]) == k;
    }
  }

  lemma AllocatedIff(pool: real, v: Derived, k: NodeDate, looks: seq<RewardLook>)
    requires TablesKeyed(v) && RankedList(RankingsOn(v, k.1), k.1) && RewardRows(pool, v, k.1, looks)
    ensures k in v.allocations <==> k in v.rankings && v.rankings[k].rank <= LAST_RANK
  {
    hide Sorting, AllocationRows, StandingsOf, NewEligibility;
    var rankings := RankingsOn(v, k.1);
    var rows := AllocationRows(pool, rankings, StandingsOf(NewEligibility(rankings, looks)));
    AllocationRowsKeyed(pool, rankings, StandingsOf(NewEligibility(rankings, looks)), k.1);
    AllocationClosedForm(pool, rankings, StandingsOf(NewEligibility(rankings, looks)), k.1);
    FromRowsHolds(rows, AllocationKey);
    if k in v.allocations {
      assert OnDate(v.allocations, k.1)[k] == v.allocations[k];
      var i :| 0 <= i < |rows| && rows[i] == v.allocations[k];
      BackToTable(OnDate(v.rankings, k.1), RankingOrder, i);
      var j :| j in OnDate(v.rankings, k.1) && OnDate(v.rankings, k.1)[j] == rankings[i];
      assert RankingKey(v.rankings[j]) == j && AllocationKey(v.allocations[k]) == k;
    }
    if k in v.rankings && v.rankings[k].rank <= LAST_RANK {
      assert OnDate(v.rankings, k.1)[k] == v.rankings[k] && RankingKey(v.rankings[k]) == k;
      ListedRow(OnDate(v.rankings, k.1), RankingOrder, v.rankings[k]);
      var i :| 0 <= i < |rankings| && rankings[i] == v.rankings[k];
      assert AllocationKey(rows[i]) == k;
    }
  }

  /** In every reachable store: a base record exists exactly for a qualified decision, a ranking and an
      eligibility row exactly for a base record, and an allocation exactly for a ranking row of rank at
      most 2^30. */
  lemma ReachableRowsExist(c: Config, seed: map<string, Node>, run: seq<Event>, k: NodeDate)
    requires SeedOk(seed) && Lawful(c, seed, run)
    ensures var v := After(c, seed, run).mem.derived;
      && (k in v.decisions <==> k in v.summaries)
      && (k in v.bases <==> k in v.decisions && v.decisions[k].qualified)
      && (k in v.rankings <==> k in v.bases)
      && (k in v.eligibility <==> k in v.rankings)
      && (k in v.allocations <==> k in v.rankings && v.rankings[k].rank <= LAST_RANK)
  {
    hide After, Lawful;
    RunOk(c, seed, run);
    RowsExist(c, seed, After(c, seed, run).mem, k);
  }

  lemma RowsExist(c: Config, seed: map<string, Node>, s: State, k: NodeDate)
    requires StateOk(c, seed, s)
    ensures var v := s.derived;
      && (k in v.decisions <==> k in v.summaries)
      && (k in v.bases <==> k in v.decisions && v.decisions[k].qualified)
      && (k in v.rankings <==> k in v.bases)
      && (k in v.eligibility <==> k in v.rankings)
      && (k in v.eligibility ==> (v.eligibility[k].eligible <==> v.eligibility[k].exclusion == NoReason))
      && (k in v.eligibility ==> v.eligibility[k].exclusion in {NoReason, SameOperatorGroup, SameRegistrableDomain, SameSharedControlPlane})
      && (k in v.allocations <==> k in v.rankings && v.rankings[k].rank <= LAST_RANK)
  {
    hide RewardRows, RankedList, Sorting, TablesKeyed, RowsMatch, GradedAs, BaseOf, InScoreWindow, CountsOrdered;
    hide SummaryFresh, RankingFresh, RewardsFresh, RankingStands, RewardsFollow, NodesOk, EventsOk, LogsOk, EvidenceOk;
    KeyedTables(s.derived, seed.Keys);
    var looks := DateRanked(c, seed, s, k.1);
    RankedIffBase(s.derived, k);
    EligibilityIffRanked(c.nominalPool, s.derived, k, looks);
    AllocatedIff(c.nominalPool, s.derived, k, looks);
  }

  // ---- Agreement, stated for runs ----

  /** Each stored summary is the recount of the stored probes, where the time texts that name its date
      denote moments of it. */
  ghost predicate SummariesRecounted(c: Config, s: State) {
    forall k :: k in s.derived.summaries && AlignedFor(s.probes, k.0, k.1) ==>
      s.derived.summaries[k] == SummaryOf(c.policy, s.probes, k.0, k.1)
  }

  /** Decisions follow from the summaries and the stored checks, voting keys, heartbeats and
      registration times. */
  ghost predicate DecisionsRest(s: State) {
    forall k :: k in s.derived.decisions ==> k in s.derived.summaries && DecisionShown(s, k)
  }

  ghost predicate BasesFollow(v: Derived) {
    && (forall k :: k in v.bases <==> k in v.decisions && v.decisions[k].qualified)
    && (forall k :: k in v.bases ==> k in v.summaries && v.bases[k] == BaseOf(v.summaries[k], v.decisions[k]))
  }

  /** Ranking, eligibility and allocations of each date are what a rebuild from the stored base records,
      evidence and ranking gives, where the time texts that name the date denote moments of it. */
  ghost predicate DatesRebuilt(c: Config, s: State) {
    && (forall date :: AlignedOn(s.evidence.placements, date) ==> RankingCurrent(s.evidence, RegistrationsOf(s.nodes), s.derived, date))
    && (forall date :: RewardEvidenceAligned(s.evidence, date) ==> RewardsCurrent(c.nominalPool, s.evidence, s.derived, date))
  }

  ghost predicate AgreesWithRecomputation(c: Config, s: State) {
    SummariesRecounted(c, s) && DecisionsRest(s) && BasesFollow(s.derived) && DatesRebuilt(c, s)
  }

  /** Every reachable store agrees with recomputation. */
  lemma ReachableViewsAgree(c: Config, seed: map<string, Node>, run: seq<Event>)
    requires SeedOk(seed) && Lawful(c, seed, run)
    ensures AgreesWithRecomputation(c, After(c, seed, run).mem)
  {
    hide After, Lawful, SummariesRecounted, DecisionsRest, BasesFollow, DatesRebuilt, ViewsOk, SavedOk, WellFormed, GroundedExcept;
    RunOk(c, seed, run);
    var s := After(c, seed, run).mem;
    SummariesAgree(c, s);
    DecisionsAgree(s);
    BasesAgree(c, s);
    DatesAgree(c, s);
  }

  lemma SummariesAgree(c: Config, s: State)
    requires ViewsOk(c, s)
    ensures SummariesRecounted(c, s)
  {
    hide SummaryOf, AlignedFor, RankingStands, RewardsFollow, RankingFresh, RewardsFresh, GradesOk, AllAcceptable;
    forall k | k in s.derived.summaries && AlignedFor(s.probes, k.0, k.1)
      ensures s.derived.summaries[k] == SummaryOf(c.policy, s.probes, k.0, k.1)
    {
      assert SummaryFresh(c, s, k);
    }
  }

  lemma DecisionsAgree(s: State)
    requires GroundedExcept(s, {})
    ensures DecisionsRest(s)
  {
    hide Grounded, DecisionShown;
    forall k | k in s.derived.decisions
      ensures k in s.derived.summaries && DecisionShown(s, k)
    {
      assert Grounded(s, k);
      GroundedIsShown(s, k);
    }
  }

  lemma BasesAgree(c: Config, s: State)
    requires ViewsOk(c, s)
    ensures BasesFollow(s.derived)
  {
    hide BaseOf, GradedAs, CountsOrdered, InScoreWindow, RankingStands, RewardsFollow, SummaryFresh, RankingFresh, RewardsFresh, AllAcceptable;
  }

  lemma DatesAgree(c: Config, s: State)
    requires ViewsOk(c, s)
    ensures DatesRebuilt(c, s)
  {
    hide RankingCurrent, RewardsCurrent, RankingStands, RewardsFollow, AlignedOn, RewardEvidenceAligned, SummaryFresh, GradesOk, AllAcceptable;
    forall date
      ensures AlignedOn(s.evidence.placements, date) ==> RankingCurrent(s.evidence, RegistrationsOf(s.nodes), s.derived, date)
      ensures RewardEvidenceAligned(s.evidence, date) ==> RewardsCurrent(c.nominalPool, s.evidence, s.derived, date)
    {
      assert RankingFresh(s, date) && RewardsFresh(c, s, date);
    }
  }

  /** In every reachable store a base record rests on a registration at least 72 hours before, and on two
      stored heartbeats of the node within 15 minutes of, one anchor that is not after the end of its
      date. */
  lemma ReachableBaseRecords(c: Config, seed: map<string, Node>, run: seq<Event>, k: NodeDate)
    requires SeedOk(seed) && Lawful(c, seed, run) && k in After(c, seed, run).mem.derived.bases
    ensures var s := After(c, seed, run).mem;
      exists anchor :: anchor <= EndOfDate(k.1) && ObservedBy(s, k.0, anchor) && HasTwoBeats(s, k.0, anchor)
  {
    hide After, Lawful, ViewsOk, SavedOk, WellFormed, Grounded, DecisionShown, ObservedBy, HasTwoBeats;
    RunOk(c, seed, run);
    BaseRecordShown(c, After(c, seed, run).mem, k);
  }

  lemma BaseRecordShown(c: Config, s: State, k: NodeDate)
    requires ViewsOk(c, s) && GroundedExcept(s, {}) && k in s.derived.bases
    ensures exists anchor :: anchor <= EndOfDate(k.1) && ObservedBy(s, k.0, anchor) && HasTwoBeats(s, k.0, anchor)
  {
    hide Grounded, ObservedBy, HasTwoBeats, IsLatest, AlignedFor, SummaryFresh, RankingFresh, RewardsFresh, RankingStands, RewardsFollow, GradedAs, BaseOf, InScoreWindow, CountsOrdered;
    assert Grounded(s, k);
    GroundedIsShown(s, k);
    var check, votingKey, anchor :| anchor <= EndOfDate(k.1) && GatesShown(s, k, check, votingKey, anchor);
  }

  /** When moreover no two pieces of evidence about a node share a time, rebuilding such a date of a
      reachable store changes nothing, apart from the copied group of a ranking row. */
  lemma ReachableRebuildChangesNothing(c: Config, seed: map<string, Node>, run: seq<Event>, date: int, ranks: RankLooks, rewards: seq<RewardLook>)
    requires SeedOk(seed) && Lawful(c, seed, run)
    requires var e := After(c, seed, run).mem.evidence;
      AlignedOn(e.placements, date) && RewardEvidenceAligned(e, date)
      && Determined(e.placements) && Determined(e.groups) && Determined(e.domains) && Determined(e.planes)
    requires var s := After(c, seed, run).mem;
      && RankLooksFound(s.evidence, OnDate(s.derived.bases, date), RegistrationsOf(s.nodes), date, ranks)
      && RewardsFound(s.evidence, RankingsOn(s.derived, date), date, rewards)
    ensures var s := After(c, seed, run).mem;
      var rebuilt, stored := NewRankings(OnDate(s.derived.bases, date), RegistrationsOf(s.nodes), ranks), RankingsOn(s.derived, date);
      && RebuildRewards(c, s, date, rewards) == s
      && |rebuilt| == |stored|
      && forall i :: 0 <= i < |rebuilt| ==> rebuilt[i] == stored[i].(operatorGroupId := rebuilt[i].operatorGroupId)
  {
    hide After, Lawful, RankingCurrent, RewardsCurrent, AlignedOn, RankLooksFound, RewardsFound, Determined, Sorting, NewRankings, EligibilityStep;
    hide GradesOk, SavedOk, RankingStands, RewardsFollow, RankedList;
    RunOk(c, seed, run);
    var s := After(c, seed, run).mem;
    KeyedTables(s.derived, seed.Keys);
    assert RankingFresh(s, date) && RewardsFresh(c, s, date);
    RebuildRankingChangesNothing(s.evidence, RegistrationsOf(s.nodes), s.derived, date, ranks);
    var _ := DateRanked(c, seed, s, date);
    RebuildRewardsChangesNothing(c.nominalPool, s.evidence, s.derived, date, rewards);
  }

  // ---- Exactly when an accepted probe keeps the summaries in agreement ----

  ghost predicate SummariesExact(c: Config, s: State) {
    forall k :: k in s.derived.summaries ==> s.derived.summaries[k] == SummaryOf(c.policy, s.probes, k.0, k.1)
  }

  /** An accepted probe keeps every stored summary equal to the recount exactly when its time text
      names its UTC date or no summary is stored for the date the text names. */
  lemma ProbeKeepsSummariesIff(c: Config, s: State, r: ProbeRequest, env: Env)
    requires ProbeError(c, s, r, env.now).None? && SummariesExact(c, s)
    ensures SummariesExact(c, Settled(c, s, SendProbe(r), env))
      <==> Aligned(r.observedAt.t) || (r.nodeId, TextDate(r.observedAt.t)) !in s.derived.summaries
  {
    hide SummaryOf, RankingStep, ReadingsOf, DecisionOf, BaseOf, NotNegative;
    var e := Observation(r.probeId, r.nodeId, r.observedAt.t, ProbeOf(r));
    var key, stale := (r.nodeId, UtcDate(e.observedAt)), (r.nodeId, TextDate(e.observedAt));
    var t := Settled(c, s, SendProbe(r), env);
    ProbeSummaries(c, s, r, env);
    StoredProbeChangesSummary(c.policy, s.probes, e);
    forall k: NodeDate | k != stale
      ensures SummaryOf(c.policy, t.probes, k.0, k.1) == SummaryOf(c.policy, s.probes, k.0, k.1)
    {
      OtherSummariesUnchanged(c.policy, s.probes, e, k.0, k.1);
    }
    assert t.derived.summaries[key] == SummaryOf(c.policy, t.probes, key.0, key.1);
    if stale in s.derived.summaries && stale != key {
      assert t.derived.summaries[stale] == SummaryOf(c.policy, s.probes, stale.0, stale.1);
    }
  }

  lemma ProbeSummaries(c: Config, s: State, r: ProbeRequest, env: Env)
    requires ProbeError(c, s, r, env.now).None?
    ensures var t := Settled(c, s, SendProbe(r), env);
      var e := Observation(r.probeId, r.nodeId, r.observedAt.t, ProbeOf(r));
      && e.ref !in s.probes && t.probes == s.probes[e.ref := e]
      && t.derived.summaries == s.derived.summaries[(r.nodeId, UtcDate(e.observedAt)) := SummaryOf(c.policy, t.probes, r.nodeId, UtcDate(e.observedAt))]
  {
    hide SummaryOf, RankingStep, ReadingsOf, DecisionOf, BaseOf, NotNegative;
    var noted := Noted(c, s, SendProbe(r), env.now);
    var date := UtcDate(r.observedAt.t);
    RankingStepKeepsRest(c.nominalPool, GradeStep(c, noted, r.nodeId, date, env.now, env.looks), RegistrationsOf(noted.nodes), date, env.looks.ranks);
  }

  // ---- Saving and restarting ----

  /** Every reachable store is accepted when it is saved and loaded over the same configured nodes,
      comes back the same with its heartbeat log sorted, and then saves to the identical snapshot. */
  lemma ReachableStoreReloads(c: Config, seed: map<string, Node>, run: seq<Event>)
    requires SeedOk(seed) && Lawful(c, seed, run)
    ensures var s := After(c, seed, run).mem;
      && Loadable(seed, SnapshotOf(s))
      && Loaded(seed, SnapshotOf(s)) == Reloaded(s)
      && SnapshotOf(Reloaded(s)) == SnapshotOf(s)
  {
    hide After, Lawful, ViewsOk, SnapshotOf, Loaded, Loadable, SavedOk, WellFormed;
    RunOk(c, seed, run);
    SnapshotRoundTrip(seed, After(c, seed, run).mem);
  }

  /** Whatever a run does, a restart at its end succeeds and comes back to exactly the last saved
      store. */
  lemma ReachableRestartSucceeds(c: Config, seed: map<string, Node>, run: seq<Event>)
    requires SeedOk(seed) && Lawful(c, seed, run)
    ensures var sys := After(c, seed, run);
      var again := RestartStep(seed, sys);
      && (sys.disk.Some? ==> Loadable(seed, sys.disk.value) && SnapshotOf(again.mem) == sys.disk.value)
      && (sys.disk.None? ==> again.mem == Fresh(seed))
      && StateOk(c, seed, again.mem)
  {
    hide After, Lawful, StateOk, SnapshotOf, Loaded, Loadable;
    RunOk(c, seed, run);
    RestartOk(c, seed, After(c, seed, run));
  }
}
