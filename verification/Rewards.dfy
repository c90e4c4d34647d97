/** Splitting the daily pool over the ranked nodes, band by band. */
module Rewards {
  import opened Records
  import opened Counting
  import opened RankingRules

  datatype Band = Band(title: string, first: int, last: int, share: real)

  const LAST_RANK := 0x4000_0000

  const BANDS: seq<Band> := [
    Band("1-5", 1, 5, 0.25),
    Band("6-20", 6, 20, 0.35),
    Band("21-50", 21, 50, 0.25),
    Band("51+", 51, LAST_RANK, 0.15)]

  function ParticipationRate(ranked: int): real {
    if ranked <= 0 then 0.0
    else if ranked < 25 then 0.30
    else if ranked < 50 then 0.50
    else if ranked < 100 then 0.75
    else 1.0
  }

  function Distributed(pool: real, ranked: int): real {
    pool * ParticipationRate(ranked)
  }

  predicate InBand(band: Band, rank: int) {
    band.first <= rank <= band.last
  }

  /** The eligibility row of each node. */
  type Standings = map<string, Eligibility>

  predicate Rewarded(standings: Standings, nodeId: string) {
    nodeId in standings && standings[nodeId].eligible
  }

  function RewardedIn(band: Band, standings: Standings): Ranking -> bool {
    (r: Ranking) => InBand(band, r.rank) && Rewarded(standings, r.nodeId)
  }

  /** How many nodes of a band are rewarded. */
  function EligibleCount(rankings: seq<Ranking>, standings: Standings, band: Band): nat {
    Count(rankings, RewardedIn(band, standings))
  }

  /** The figures that every row of a band carries. */
  datatype Terms = Terms(
    band: Band,
    pool: real,
    ranked: int,
    rate: real,
    distributed: real,
    bandPool: real,
    eligible: nat,
    payment: real)

  function TermsOf(pool: real, rankings: seq<Ranking>, standings: Standings, band: Band): Terms {
    TermsFor(pool, |rankings|, EligibleCount(rankings, standings, band), band)
  }

  function TermsFor(pool: real, ranked: int, eligible: nat, band: Band): Terms {
    var distributed := Distributed(pool, ranked);
    var bandPool := distributed * band.share;
    Terms(band, pool, ranked, ParticipationRate(ranked), distributed, bandPool, eligible,
      if eligible > 0 then bandPool / eligible as real else 0.0)
  }

  function AllocationRow(t: Terms, standings: Standings, r: Ranking): Allocation {
    Allocation(
      r.nodeId, r.date, r.policyVersion, r.rank, t.ranked, t.pool, t.rate, t.distributed, t.pool - t.distributed,
      t.band.title, t.band.share, t.bandPool, t.eligible,
      if Rewarded(standings, r.nodeId) then t.payment else 0.0,
      Rewarded(standings, r.nodeId),
      if r.nodeId in standings then standings[r.nodeId].exclusion else NoReason)
  }

  /** The rows of one band. */
  function BandRows(t: Terms, standings: Standings, rankings: seq<Ranking>): seq<Allocation> {
    if rankings == [] then []
    else
      var last := rankings[|rankings| - 1];
      BandRows(t, standings, rankings[..|rankings| - 1]) + (if InBand(t.band, last.rank) then [AllocationRow(t, standings, last)] else [])
  }

  function RowsOf(pool: real, rankings: seq<Ranking>, standings: Standings, band: Band): seq<Allocation> {
    BandRows(TermsOf(pool, rankings, standings, band), standings, rankings)
  }

  /** All bands in turn. */
  function AllocationRows(pool: real, rankings: seq<Ranking>, standings: Standings): seq<Allocation> {
    RowsOf(pool, rankings, standings, BANDS[0]) + RowsOf(pool, rankings, standings, BANDS[1])
    + RowsOf(pool, rankings, standings, BANDS[2]) + RowsOf(pool, rankings, standings, BANDS[3])
  }

  // ---- The loops ----

  /** `rewardEligibilityIndex`: the last row of a node counts. */
  method IndexByNode(rows: seq<Eligibility>) returns (standings: Standings)
    ensures standings == StandingsOf(rows)
  {
    standings := map[];
    for i := 0 to |rows|
      invariant standings == StandingsOf(rows[..i])
    {
      assert rows[..i + 1][..i] == rows[..i];
      standings := standings[rows[i].nodeId := rows[i]];
    }
    assert rows[..|rows|] == rows;
  }

  function StandingsOf(rows: seq<Eligibility>): Standings {
    if rows == [] then map[]
    else StandingsOf(rows[..|rows| - 1])[rows[|rows| - 1].nodeId := rows[|rows| - 1]]
  }

  method AllocateRewards(pool: real, rankings: seq<Ranking>, standings: Standings) returns (rows: seq<Allocation>)
    ensures rows == AllocationRows(pool, rankings, standings)
    ensures forall date, i :: RankedList(rankings, date) && 0 <= i < |rows| ==> RowAddsUp(pool, |rankings|, rows, i)
  {
    rows := [];
    if rankings == [] {
      return;
    }
    var b := 0;
    while b < |BANDS|
      invariant 0 <= b <= |BANDS|
      invariant rows == RowsOfFirst(pool, rankings, standings, b)
    {
      var bandRows := AllocateBand(pool, rankings, standings, BANDS[b]);
      rows := rows + bandRows;
      b := b + 1;
    }
    forall date, i | RankedList(rankings, date) && 0 <= i < |rows|
      ensures RowAddsUp(pool, |rankings|, rows, i)
    {
      RowInNumbers(pool, rankings, standings, date, i);
    }
  }

  function RowsOfFirst(pool: real, rankings: seq<Ranking>, standings: Standings, bands: nat): seq<Allocation>
    requires bands <= |BANDS|
  {
    if bands == 0 then []
    else if bands == 1 then RowsOf(pool, rankings, standings, BANDS[0])
    else if bands == 2 then RowsOf(pool, rankings, standings, BANDS[0]) + RowsOf(pool, rankings, standings, BANDS[1])
    else if bands == 3 then
      RowsOf(pool, rankings, standings, BANDS[0]) + RowsOf(pool, rankings, standings, BANDS[1]) + RowsOf(pool, rankings, standings, BANDS[2])
    else AllocationRows(pool, rankings, standings)
  }

  method AllocateBand(pool: real, rankings: seq<Ranking>, standings: Standings, band: Band) returns (rows: seq<Allocation>)
    ensures rows == RowsOf(pool, rankings, standings, band)
  {
    var eligible := CountEligible(rankings, standings, band);
    var t := TermsFor(pool, |rankings|, eligible, band);
    rows := [];
    for i := 0 to |rankings|
      invariant rows == BandRows(t, standings, rankings[..i])
    {
      assert rankings[..i + 1][..i] == rankings[..i];
      if InBand(band, rankings[i].rank) {
        rows := rows + [AllocationRow(t, standings, rankings[i])];
      }
    }
    assert rankings[..|rankings|] == rankings;
  }

  method CountEligible(rankings: seq<Ranking>, standings: Standings, band: Band) returns (eligible: nat)
    ensures eligible == EligibleCount(rankings, standings, band)
  {
    eligible := 0;
    for i := 0 to |rankings|
      invariant eligible == Count(rankings[..i], RewardedIn(band, standings))
    {
      assert rankings[..i + 1][..i] == rankings[..i];
      if InBand(band, rankings[i].rank) && Rewarded(standings, rankings[i].nodeId) {
        eligible := eligible + 1;
      }
    }
    assert rankings[..|rankings|] == rankings;
  }

  // ---- Conservation ----

  function Paid(rows: seq<Allocation>): real {
    if rows == [] then 0.0 else Paid(rows[..|rows| - 1]) + rows[|rows| - 1].reward
  }

  /** The pool of a band in which nobody is rewarded. */
  function Unclaimed(pool: real, rankings: seq<Ranking>, standings: Standings, band: Band): real {
    if EligibleCount(rankings, standings, band) == 0 then Distributed(pool, |rankings|) * band.share else 0.0
  }

  lemma {:induction false} PaidAppend(xs: seq<Allocation>, ys: seq<Allocation>)
    ensures Paid(xs + ys) == Paid(xs) + Paid(ys)
  {
    if ys == [] {
      assert xs + ys == xs;
    } else {
      assert (xs + ys)[..|xs + ys| - 1] == xs + ys[..|ys| - 1];
      PaidAppend(xs, ys[..|ys| - 1]);
    }
  }

  function Times(k: nat, amount: real): real {
    if k == 0 then 0.0 else Times(k - 1, amount) + amount
  }

  lemma {:induction false} TimesIsProduct(k: nat, amount: real)
    ensures Times(k, amount) == k as real * amount
  {
    if k > 0 {
      TimesIsProduct(k - 1, amount);
      var before := (k - 1) as real;
      assert before * amount + amount == (before + 1.0) * amount;
    }
  }

  lemma {:induction false} BandPaysEach(t: Terms, standings: Standings, rankings: seq<Ranking>)
    ensures Paid(BandRows(t, standings, rankings)) == Times(Count(rankings, RewardedIn(t.band, standings)), t.payment)
  {
    if rankings != [] {
      var front, last := rankings[..|rankings| - 1], rankings[|rankings| - 1];
      BandPaysEach(t, standings, front);
      var before := BandRows(t, standings, front);
      if InBand(t.band, last.rank) {
        PaidAppend(before, [AllocationRow(t, standings, last)]);
      } else {
        assert before + [] == before;
      }
    }
  }

  /** A band pays out its whole pool, or nothing when nobody in it is rewarded. */
  lemma BandPaysItsPool(pool: real, rankings: seq<Ranking>, standings: Standings, band: Band)
    ensures Paid(RowsOf(pool, rankings, standings, band)) + Unclaimed(pool, rankings, standings, band)
         == Distributed(pool, |rankings|) * band.share
  {
    hide Distributed, EligibleCount, BandRows, Paid, Times, ParticipationRate;
    var t := TermsOf(pool, rankings, standings, band);
    BandPaysEach(t, standings, rankings);
    assert Count(rankings, RewardedIn(t.band, standings)) == t.eligible by {
      CountsEligible(rankings, standings, band);
    }
    if t.eligible > 0 {
      EqualSharesAddUp(t.eligible, t.bandPool);
    } else {
      NothingTimes(t.payment);
    }
  }

  lemma CountsEligible(rankings: seq<Ranking>, standings: Standings, band: Band)
    ensures EligibleCount(rankings, standings, band) == Count(rankings, RewardedIn(band, standings))
  {
    hide Count;
  }

  lemma NothingTimes(amount: real)
    ensures Times(0, amount) == 0.0
  {
  }

  lemma EqualSharesAddUp(k: nat, amount: real)
    requires k > 0
    ensures Times(k, amount / k as real) == amount
  {
    TimesIsProduct(k, amount / k as real);
    ShareTimesCount(amount, k as real);
  }

  lemma ShareTimesCount(amount: real, n: real)
    requires n != 0.0
    ensures n * (amount / n) == amount
  {
  }

  lemma PaidByBands(pool: real, rankings: seq<Ranking>, standings: Standings)
    ensures Paid(AllocationRows(pool, rankings, standings))
      == Paid(RowsOf(pool, rankings, standings, BANDS[0])) + Paid(RowsOf(pool, rankings, standings, BANDS[1]))
       + Paid(RowsOf(pool, rankings, standings, BANDS[2])) + Paid(RowsOf(pool, rankings, standings, BANDS[3]))
  {
    var r0, r1 := RowsOf(pool, rankings, standings, BANDS[0]), RowsOf(pool, rankings, standings, BANDS[1]);
    var r2, r3 := RowsOf(pool, rankings, standings, BANDS[2]), RowsOf(pool, rankings, standings, BANDS[3]);
    PaidAppend(r0, r1);
    PaidAppend(r0 + r1, r2);
    PaidAppend(r0 + r1 + r2, r3);
  }

  /** Nothing is created or lost: rewards, unclaimed band pools and the reserve add up to the nominal
      pool, for every ranking and every outcome of the filter. */
  lemma RewardsConserved(pool: real, rankings: seq<Ranking>, standings: Standings)
    ensures Paid(AllocationRows(pool, rankings, standings))
          + Unclaimed(pool, rankings, standings, BANDS[0]) + Unclaimed(pool, rankings, standings, BANDS[1])
          + Unclaimed(pool, rankings, standings, BANDS[2]) + Unclaimed(pool, rankings, standings, BANDS[3])
          + (pool - Distributed(pool, |rankings|)) == pool
  {
    PaidByBands(pool, rankings, standings);
    BandPaysItsPool(pool, rankings, standings, BANDS[0]);
    BandPaysItsPool(pool, rankings, standings, BANDS[1]);
    BandPaysItsPool(pool, rankings, standings, BANDS[2]);
    BandPaysItsPool(pool, rankings, standings, BANDS[3]);
  }

  // ---- One allocation per ranked node ----

  function Least(a: int, b: int): int {
    if a < b then a else b
  }

  /** A band of a ranked list is a contiguous piece of it. */
  lemma {:induction false} BandRowsAreSlice(t: Terms, standings: Standings, rankings: seq<Ranking>, date: int)
    requires RankedList(rankings, date) && 1 <= t.band.first <= t.band.last + 1
    ensures var from, to := Least(t.band.first - 1, |rankings|), Least(t.band.last, |rankings|);
      var rows := BandRows(t, standings, rankings);
      && |rows| == to - from
      && forall i :: 0 <= i < to - from ==> rows[i] == AllocationRow(t, standings, rankings[from + i])
  {
    if rankings != [] {
      BandRowsAreSlice(t, standings, rankings[..|rankings| - 1], date);
    }
  }

  /** The band a rank falls into. */
  function BandOf(rank: int): Band {
    if rank <= 5 then BANDS[0] else if rank <= 20 then BANDS[1] else if rank <= 50 then BANDS[2] else BANDS[3]
  }

  function RowAt(pool: real, rankings: seq<Ranking>, standings: Standings, i: nat): Allocation
    requires i < |rankings|
  {
    AllocationRow(TermsOf(pool, rankings, standings, BandOf(i + 1)), standings, rankings[i])
  }

  /** On a ranked list the rows come out in rank order, one per node up to rank 2^30, each computed
      from the band of its rank. */
  lemma AllocationClosedForm(pool: real, rankings: seq<Ranking>, standings: Standings, date: int)
    requires RankedList(rankings, date)
    ensures var rows := AllocationRows(pool, rankings, standings);
      && |rows| == Least(|rankings|, LAST_RANK)
      && forall i :: 0 <= i < |rows| ==> rows[i] == RowAt(pool, rankings, standings, i)
  {
    RowsOfSlice(pool, rankings, standings, BANDS[0], date);
    RowsOfSlice(pool, rankings, standings, BANDS[1], date);
    RowsOfSlice(pool, rankings, standings, BANDS[2], date);
    RowsOfSlice(pool, rankings, standings, BANDS[3], date);
  }

  lemma RowsOfSlice(pool: real, rankings: seq<Ranking>, standings: Standings, band: Band, date: int)
    requires RankedList(rankings, date) && band in BANDS
    ensures var from, to := Least(band.first - 1, |rankings|), Least(band.last, |rankings|);
      var rows := RowsOf(pool, rankings, standings, band);
      && |rows| == to - from
      && forall i :: from <= i < to ==> rows[i - from] == RowAt(pool, rankings, standings, i)
  {
    BandRowsAreSlice(TermsOf(pool, rankings, standings, band), standings, rankings, date);
  }

  /** Every ranked node gets its one allocation exactly when there are at most 2^30 of them. */
  lemma EveryRankedNodeAllocatedIff(pool: real, rankings: seq<Ranking>, standings: Standings, date: int)
    requires RankedList(rankings, date)
    ensures var rows := AllocationRows(pool, rankings, standings);
      (|rows| == |rankings| && forall i :: 0 <= i < |rankings| ==> rows[i].nodeId == rankings[i].nodeId && rows[i].rank == i + 1)
      <==> |rankings| <= LAST_RANK
  {
    AllocationClosedForm(pool, rankings, standings, date);
  }

  // ---- The rows in numbers ----

  /** The part of the pool that is distributed among so many ranked nodes. */
  predicate PartDistributed(ranked: int, part: real) {
    && (1 <= ranked <= 24 ==> part == 0.3)
    && (25 <= ranked <= 49 ==> part == 0.5)
    && (50 <= ranked <= 99 ==> part == 0.75)
    && (100 <= ranked ==> part == 1.0)
  }

  lemma DistributedPart(pool: real, ranked: int)
    ensures PartDistributed(ranked, ParticipationRate(ranked)) && Distributed(pool, ranked) == pool * ParticipationRate(ranked)
  {
  }

  /** Two ranks are both among 1-5, both among 6-20, both among 21-50, or both lower. */
  predicate SameBand(a: int, b: int) {
    (a <= 5 <==> b <= 5) && (a <= 20 <==> b <= 20) && (a <= 50 <==> b <= 50)
  }

  predicate BandShown(row: Allocation) {
    && (1 <= row.rank <= 5 ==> row.bandLabel == "1-5" && row.bandShare == 0.25)
    && (6 <= row.rank <= 20 ==> row.bandLabel == "6-20" && row.bandShare == 0.35)
    && (21 <= row.rank <= 50 ==> row.bandLabel == "21-50" && row.bandShare == 0.25)
    && (51 <= row.rank ==> row.bandLabel == "51+" && row.bandShare == 0.15)
  }

  /** The rewarded rows of the band of a rank. */
  function RewardedBeside(rows: seq<Allocation>, rank: int): set<int> {
    set k | 0 <= k < |rows| && SameBand(rows[k].rank, rank) && rows[k].eligible
  }

  /** What a row says by its own columns: which part of the pool is distributed among so many ranked nodes
      and what stays in reserve, the band of its rank, how many of that band are rewarded, and the equal
      share of the band's pool that it gets if it is rewarded. */
  ghost predicate RowAddsUp(pool: real, ranked: int, rows: seq<Allocation>, i: nat)
    requires i < |rows|
  {
    var row := rows[i];
    && row.rank == i + 1 && row.rankedNodes == ranked && row.nominalPool == pool
    && PartDistributed(ranked, row.participationRate)
    && row.distributedPool == pool * row.participationRate && row.reservePool == pool - row.distributedPool
    && BandShown(row) && row.bandPool == row.distributedPool * row.bandShare
    && row.bandEligible == |RewardedBeside(rows, row.rank)|
    && (row.eligible ==> row.bandEligible > 0 && row.reward == row.bandPool / row.bandEligible as real)
    && (!row.eligible ==> row.reward == 0.0)
  }

  lemma RowInNumbers(pool: real, rankings: seq<Ranking>, standings: Standings, date: int, i: nat)
    requires RankedList(rankings, date) && i < |AllocationRows(pool, rankings, standings)|
    ensures |AllocationRows(pool, rankings, standings)| == if |rankings| <= 1_073_741_824 then |rankings| else 1_073_741_824
    ensures RowAddsUp(pool, |rankings|, AllocationRows(pool, rankings, standings), i)
    ensures AllocationRows(pool, rankings, standings)[i].eligible <==> Rewarded(standings, rankings[i].nodeId)
  {
    hide AllocationRows, EligibleCount;
    var rows := AllocationRows(pool, rankings, standings);
    AllocationClosedForm(pool, rankings, standings, date);
    RewardedOfBand(pool, rankings, standings, date, i);
    if Rewarded(standings, rankings[i].nodeId) {
      RewardedIsCounted(rankings, standings, BandOf(i + 1), i);
    }
  }

  lemma RewardedOfBand(pool: real, rankings: seq<Ranking>, standings: Standings, date: int, i: nat)
    requires RankedList(rankings, date) && i < |AllocationRows(pool, rankings, standings)|
    ensures i < |rankings|
    ensures EligibleCount(rankings, standings, BandOf(i + 1)) == |RewardedBeside(AllocationRows(pool, rankings, standings), i + 1)|
  {
    hide AllocationRows;
    AllocationClosedForm(pool, rankings, standings, date);
    CountCounts(rankings, RewardedIn(BandOf(i + 1), standings));
    assert Passing(rankings, RewardedIn(BandOf(i + 1), standings)) == RewardedBeside(AllocationRows(pool, rankings, standings), i + 1);
  }

  /** The share of a band in which nobody is rewarded. */
  ghost function LeftOver(rows: seq<Allocation>, rank: int, share: real): real
    requires rows != []
  {
    if RewardedBeside(rows, rank) == {} then rows[0].distributedPool * share else 0.0
  }

  /** All that is paid, what no band claims and the reserve that the rows show are the nominal pool. */
  lemma PoolAddsUp(pool: real, rankings: seq<Ranking>, standings: Standings, date: int)
    requires RankedList(rankings, date) && rankings != []
    ensures var rows := AllocationRows(pool, rankings, standings);
      && rows != []
      && Paid(rows) + LeftOver(rows, 1, 0.25) + LeftOver(rows, 6, 0.35) + LeftOver(rows, 21, 0.25) + LeftOver(rows, 51, 0.15)
         + rows[0].reservePool == pool
  {
    hide AllocationRows, EligibleCount, Paid, RewardedBeside;
    var rows := AllocationRows(pool, rankings, standings);
    AllocationClosedForm(pool, rankings, standings, date);
    BandLeftOver(pool, rankings, standings, date, 1, BANDS[0]);
    BandLeftOver(pool, rankings, standings, date, 6, BANDS[1]);
    BandLeftOver(pool, rankings, standings, date, 21, BANDS[2]);
    BandLeftOver(pool, rankings, standings, date, 51, BANDS[3]);
    RewardsConserved(pool, rankings, standings);
  }

  lemma BandLeftOver(pool: real, rankings: seq<Ranking>, standings: Standings, date: int, rank: int, band: Band)
    requires RankedList(rankings, date) && rankings != []
    requires band == BandOf(rank) && rank in {1, 6, 21, 51}
    ensures AllocationRows(pool, rankings, standings) != []
    ensures LeftOver(AllocationRows(pool, rankings, standings), rank, band.share) == Unclaimed(pool, rankings, standings, band)
  {
    hide AllocationRows;
    AllocationClosedForm(pool, rankings, standings, date);
    CountCounts(rankings, RewardedIn(band, standings));
    var rows := AllocationRows(pool, rankings, standings);
    assert Passing(rankings, RewardedIn(band, standings)) == RewardedBeside(rows, rank);
    assert rows[0] == RowAt(pool, rankings, standings, 0);
  }

  // ---- How much a rewarded node gets ----

  /** A set of positions inside a range is no larger than the range. */
  lemma {:induction false} RangeBoundsCount(s: set<int>, lo: int, hi: int)
    requires lo <= hi
    requires forall i :: i in s ==> lo <= i < hi
    ensures |s| <= hi - lo
    decreases hi - lo
  {
    if lo == hi {
      assert s == {};
    } else {
      RangeBoundsCount(s - {hi - 1}, lo, hi - 1);
      if hi - 1 in s {
        assert |s| == |s - {hi - 1}| + 1;
      }
    }
  }

  lemma EligibleFitsBand(rankings: seq<Ranking>, standings: Standings, band: Band, date: int)
    requires RankedList(rankings, date) && 1 <= band.first <= band.last
    ensures EligibleCount(rankings, standings, band) <= band.last - band.first + 1
  {
    CountCounts(rankings, RewardedIn(band, standings));
    RangeBoundsCount(Passing(rankings, RewardedIn(band, standings)), band.first - 1, band.last);
  }

  lemma RewardedIsCounted(rankings: seq<Ranking>, standings: Standings, band: Band, i: nat)
    requires i < |rankings| && InBand(band, rankings[i].rank) && Rewarded(standings, rankings[i].nodeId)
    ensures EligibleCount(rankings, standings, band) >= 1
  {
    CountCounts(rankings, RewardedIn(band, standings));
    var all := Passing(rankings, RewardedIn(band, standings));
    assert i in all;
    assert |all| >= |{i}|  by {
      assert all == (all - {i}) + {i};
    }
  }

  lemma SmallerDivisorPaysMore(amount: real, n: real, m: real)
    requires amount >= 0.0 && 0.0 < n <= m
    ensures amount / n >= amount / m
  {
    var q := amount / m;
    assert q >= 0.0;
    assert q * n <= q * m == amount;
    assert amount / n == amount * (1.0 / n);
    if amount / n < q {
      assert (amount / n) * n < q * n;
    }
  }

  /** A rewarded node of ranks 1-5, 6-20 or 21-50 gets at least 1/20, 7/300 or 1/120 of the
      distributed pool, however many others its band holds. */
  lemma RewardFloor(pool: real, rankings: seq<Ranking>, standings: Standings, date: int, i: nat)
    requires RankedList(rankings, date) && pool >= 0.0
    requires i < |rankings| && i < 50 && Rewarded(standings, rankings[i].nodeId)
    ensures var d := Distributed(pool, |rankings|);
      var reward := RowAt(pool, rankings, standings, i).reward;
      && (i < 5 ==> reward >= d / 20.0)
      && (5 <= i < 20 ==> reward >= d * 7.0 / 300.0)
      && (20 <= i ==> reward >= d / 120.0)
  {
    var band := BandOf(i + 1);
    var d := Distributed(pool, |rankings|);
    RewardedIsCounted(rankings, standings, band, i);
    EligibleFitsBand(rankings, standings, band, date);
    assert d >= 0.0 && d * band.share >= 0.0;
    SmallerDivisorPaysMore(d * band.share, EligibleCount(rankings, standings, band) as real, (band.last - band.first + 1) as real);
  }

  /** Whenever anyone is ranked and the first node is rewarded - which the filter guarantees - at
      least a quarter of the distributed pool is paid. */
  lemma QuarterAlwaysPaid(pool: real, rankings: seq<Ranking>, standings: Standings, date: int)
    requires RankedList(rankings, date) && rankings != [] && pool >= 0.0
    requires Rewarded(standings, rankings[0].nodeId)
    ensures Paid(AllocationRows(pool, rankings, standings)) >= Distributed(pool, |rankings|) * 0.25
  {
    var d := Distributed(pool, |rankings|);
    assert d >= 0.0;
    RewardedIsCounted(rankings, standings, BANDS[0], 0);
    BandPaysItsPool(pool, rankings, standings, BANDS[0]);
    BandPaysItsPool(pool, rankings, standings, BANDS[1]);
    BandPaysItsPool(pool, rankings, standings, BANDS[2]);
    BandPaysItsPool(pool, rankings, standings, BANDS[3]);
    PaidByBands(pool, rankings, standings);
  }

  // ---- When a higher rank is paid at least as much ----

  lemma SharesCompare(d: real, s: real, t: real, m: real, n: real)
    requires d > 0.0 && m > 0.0 && n > 0.0
    ensures d * s / m >= d * t / n <==> s * n >= t * m
  {
    var (x, y) := (d * s / m, d * t / n);
    assert x * m == d * s && y * n == d * t;
    ProductOrder(x, y, m * n);
    assert x * (m * n) == (x * m) * n == d * (s * n);
    assert y * (m * n) == (y * n) * m == d * (t * m);
    ProductOrder(s * n, t * m, d);
  }

  lemma ProductOrder(x: real, y: real, k: real)
    requires k > 0.0
    ensures x >= y <==> x * k >= y * k
  {
    if x >= y {
      assert (x - y) * k >= 0.0;
    } else {
      assert (y - x) * k > 0.0;
    }
  }

  lemma SomethingDistributed(pool: real, ranked: int)
    requires pool > 0.0 && ranked > 0
    ensures Distributed(pool, ranked) > 0.0
  {
  }

  /** A rewarded node is paid its band's share of the distributed pool over the number of rewarded
      nodes of the band, which counts it; any other node is paid nothing. */
  lemma RewardOfRow(pool: real, rankings: seq<Ranking>, standings: Standings, date: int, i: nat)
    requires RankedList(rankings, date) && i < |rankings| && i < LAST_RANK
    ensures var band, reward := BandOf(i + 1), RowAt(pool, rankings, standings, i).reward;
      if Rewarded(standings, rankings[i].nodeId)
      then EligibleCount(rankings, standings, band) > 0
        && reward == Distributed(pool, |rankings|) * band.share / EligibleCount(rankings, standings, band) as real
      else reward == 0.0
    ensures BandOf(i + 1).share > 0.0
  {
    hide Distributed;
    if Rewarded(standings, rankings[i].nodeId) {
      RewardedIsCounted(rankings, standings, BandOf(i + 1), i);
    }
  }

  /** The row of `i` pays no less than the row of `j`, for any two ranks, exactly when `j` is not
      rewarded, or `i` is and its band's share per rewarded node is no smaller. */
  lemma PaidNoLessIff(pool: real, rankings: seq<Ranking>, standings: Standings, date: int, i: nat, j: nat)
    requires RankedList(rankings, date) && pool > 0.0 && i < |rankings| && j < |rankings| && i < LAST_RANK && j < LAST_RANK
    ensures RowAt(pool, rankings, standings, i).reward >= RowAt(pool, rankings, standings, j).reward <==>
      (Rewarded(standings, rankings[j].nodeId) ==>
        Rewarded(standings, rankings[i].nodeId) && SharesNoLess(rankings, standings, BandOf(i + 1), BandOf(j + 1)))
  {
    hide Distributed, EligibleCount, BandOf, Rewarded, RowAt, RankedList;
    var (a, b) := (BandOf(i + 1), BandOf(j + 1));
    var (m, n) := (EligibleCount(rankings, standings, a) as real, EligibleCount(rankings, standings, b) as real);
    var d := Distributed(pool, |rankings|);
    SomethingDistributed(pool, |rankings|);
    RewardOfRow(pool, rankings, standings, date, i);
    RewardOfRow(pool, rankings, standings, date, j);
    if Rewarded(standings, rankings[i].nodeId) && Rewarded(standings, rankings[j].nodeId) {
      SharesCompare(d, a.share, b.share, m, n);
    } else if Rewarded(standings, rankings[i].nodeId) {
      PositiveQuotient(d, a, m);
    } else if Rewarded(standings, rankings[j].nodeId) {
      PositiveQuotient(d, b, n);
    }
  }

  lemma PositiveQuotient(d: real, band: Band, n: real)
    requires d > 0.0 && n > 0.0 && band.share > 0.0
    ensures d * band.share / n > 0.0
  {
    var x := d * band.share / n;
    assert x * n == d * band.share > 0.0;
    if x <= 0.0 {
      ProductOrder(0.0, x, n);
    }
  }

  /** Cross-multiplied: the first band's share per rewarded node is no smaller than the second's. */
  predicate SharesNoLess(rankings: seq<Ranking>, standings: Standings, a: Band, b: Band) {
    a.share * EligibleCount(rankings, standings, b) as real >= b.share * EligibleCount(rankings, standings, a) as real
  }

  /** No rewarded node is paid less than a lower-ranked one. */
  ghost predicate PaysByRank(pool: real, rankings: seq<Ranking>, standings: Standings) {
    forall i, j :: 0 <= i < j < |rankings| && Rewarded(standings, rankings[i].nodeId) && Rewarded(standings, rankings[j].nodeId) ==>
      RowAt(pool, rankings, standings, i).reward >= RowAt(pool, rankings, standings, j).reward
  }

  /** No band with a rewarded node has a smaller share per rewarded node than a later one. */
  ghost predicate BandsPayByRank(rankings: seq<Ranking>, standings: Standings) {
    forall a, b :: 0 <= a < b < |BANDS|
      && EligibleCount(rankings, standings, BANDS[a]) > 0 && EligibleCount(rankings, standings, BANDS[b]) > 0
      ==> SharesNoLess(rankings, standings, BANDS[a], BANDS[b])
  }

  /** Rewards are monotone in rank exactly when they are from band to band. */
  lemma PaysByRankIff(pool: real, rankings: seq<Ranking>, standings: Standings, date: int)
    requires RankedList(rankings, date) && pool > 0.0 && |rankings| <= LAST_RANK
    ensures PaysByRank(pool, rankings, standings) <==> BandsPayByRank(rankings, standings)
  {
    hide RowAt, SharesNoLess, EligibleCount;
    if PaysByRank(pool, rankings, standings) {
      forall a, b | 0 <= a < b < |BANDS|
        && EligibleCount(rankings, standings, BANDS[a]) > 0 && EligibleCount(rankings, standings, BANDS[b]) > 0
        ensures SharesNoLess(rankings, standings, BANDS[a], BANDS[b])
      {
        var i := MemberOf(rankings, standings, a, date);
        var j := MemberOf(rankings, standings, b, date);
        PaidNoLessIff(pool, rankings, standings, date, i, j);
      }
    }
    if BandsPayByRank(rankings, standings) {
      forall i, j | 0 <= i < j < |rankings| && Rewarded(standings, rankings[i].nodeId) && Rewarded(standings, rankings[j].nodeId)
        ensures RowAt(pool, rankings, standings, i).reward >= RowAt(pool, rankings, standings, j).reward
      {
        PaidNoLessIff(pool, rankings, standings, date, i, j);
        LaterBand(rankings, standings, i, j);
        RewardOfRow(pool, rankings, standings, date, i);
        RewardOfRow(pool, rankings, standings, date, j);
      }
    }
  }

  /** A rewarded node of a band that has one. */
  lemma MemberOf(rankings: seq<Ranking>, standings: Standings, a: nat, date: int) returns (i: nat)
    requires RankedList(rankings, date) && a < |BANDS| && EligibleCount(rankings, standings, BANDS[a]) > 0
    ensures i < |rankings| && i < LAST_RANK && Rewarded(standings, rankings[i].nodeId) && BandOf(i + 1) == BANDS[a]
    ensures BANDS[a].first <= i + 1 <= BANDS[a].last
  {
    CountCounts(rankings, RewardedIn(BANDS[a], standings));
    var all := Passing(rankings, RewardedIn(BANDS[a], standings));
    var k :| k in all;
    i := k;
  }

  function BandIndex(rank: int): nat {
    if rank <= 5 then 0 else if rank <= 20 then 1 else if rank <= 50 then 2 else 3
  }

  lemma LaterBand(rankings: seq<Ranking>, standings: Standings, i: nat, j: nat)
    requires i < j
    ensures var (a, b) := (BandIndex(i + 1), BandIndex(j + 1));
      && a <= b < |BANDS| && BandOf(i + 1) == BANDS[a] && BandOf(j + 1) == BANDS[b]
    ensures BandOf(i + 1) == BandOf(j + 1) ==> SharesNoLess(rankings, standings, BandOf(i + 1), BandOf(j + 1))
  {
    hide EligibleCount;
  }

  /** Rewards need not be monotone: with 51 rewarded nodes the last one outearns the first. */
  lemma LastOutearnsFirst(pool: real, rankings: seq<Ranking>, standings: Standings, date: int)
    requires RankedList(rankings, date) && |rankings| == 51 && pool > 0.0
    requires forall i :: 0 <= i < 51 ==> Rewarded(standings, rankings[i].nodeId)
    ensures RowAt(pool, rankings, standings, 50).reward
          > RowAt(pool, rankings, standings, 0).reward
  {
    hide RowAt;
    FullBand(rankings, standings, BANDS[0], date);
    CountCounts(rankings, RewardedIn(BANDS[3], standings));
    assert Passing(rankings, RewardedIn(BANDS[3], standings)) == {50};
    PaidNoLessIff(pool, rankings, standings, date, 0, 50);
  }

  lemma FullBand(rankings: seq<Ranking>, standings: Standings, band: Band, date: int)
    requires RankedList(rankings, date) && band == BANDS[0] && |rankings| >= 5
    requires forall i :: 0 <= i < |rankings| ==> Rewarded(standings, rankings[i].nodeId)
    ensures EligibleCount(rankings, standings, band) == 5
  {
    CountCounts(rankings, RewardedIn(band, standings));
    assert Passing(rankings, RewardedIn(band, standings)) == {0, 1, 2, 3, 4};
  }

  // ---- The documented parameters ----

  /** The participation steps of the reward model document. */
  function DocumentedRate(ranked: int): real {
    if ranked <= 9 then 0.30
    else if ranked <= 19 then 0.50
    else if ranked <= 29 then 0.70
    else if ranked <= 39 then 0.85
    else if ranked <= 49 then 0.95
    else 1.0
  }

  /** The portal distributes the documented part of the pool exactly up to 9 and from 100 ranked nodes on;
      in between it distributes less, by a fifth to nearly half of the pool. */
  lemma RateAsDocumentedIff(ranked: int)
    requires ranked >= 1
    ensures ParticipationRate(ranked) == DocumentedRate(ranked) <==> ranked <= 9 || ranked >= 100
    ensures DocumentedRate(ranked) - ParticipationRate(ranked) ==
      if 10 <= ranked <= 19 then 0.20
      else if 20 <= ranked <= 24 then 0.40
      else if 25 <= ranked <= 29 then 0.20
      else if 30 <= ranked <= 39 then 0.35
      else if 40 <= ranked <= 49 then 0.45
      else if 50 <= ranked <= 99 then 0.25
      else 0.0
  {
  }

  /** The documented bands; nobody below rank 50 is in one. */
  function DocumentedBand(rank: int): Option<Band> {
    if rank <= 5 then Some(Band("1-5", 1, 5, 0.25))
    else if rank <= 10 then Some(Band("6-10", 6, 10, 0.20))
    else if rank <= 20 then Some(Band("11-20", 11, 20, 0.25))
    else if rank <= 35 then Some(Band("21-35", 21, 35, 0.18))
    else if rank <= 50 then Some(Band("36-50", 36, 50, 0.12))
    else None
  }

  /** A rank's band is the documented one exactly in ranks 1-5. */
  lemma BandAsDocumentedIff(rank: int)
    requires rank >= 1
    ensures DocumentedBand(rank) == Some(BandOf(rank)) <==> rank <= 5
  {
  }
}
