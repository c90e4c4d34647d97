/** Each rebuild step leaves its date in agreement and every other date alone. */
module Agreement {
  import opened Orders
  import opened Records
  import opened Tables
  import opened PortalState
  import opened RankingRules
  import opened AntiConcentration
  import opened Rewards
  import opened Pipeline

  /** Tables of `v` and `w` hold the same rows on a date. */
  ghost predicate SameRewards(v: Derived, w: Derived, date: int) {
    OnDate(v.eligibility, date) == OnDate(w.eligibility, date) && OnDate(v.allocations, date) == OnDate(w.allocations, date)
  }

  ghost predicate SameRanking(v: Derived, w: Derived, date: int) {
    OnDate(v.bases, date) == OnDate(w.bases, date) && OnDate(v.rankings, date) == OnDate(w.rankings, date)
  }

  // ---- Establishing agreement ----

  lemma EligibilityRowsKeyed(rankings: seq<Ranking>, claims: seq<Claim>, date: int)
    requires RankedList(rankings, date) && |claims| == |rankings|
    ensures var rows := EligibilityRows(rankings, claims);
      && DistinctKeys(rows, EligibilityKey)
      && forall i :: 0 <= i < |rows| ==> EligibilityKey(rows[i]).1 == date
  {
  }

  lemma AllocationRowsKeyed(pool: real, rankings: seq<Ranking>, standings: Standings, date: int)
    requires RankedList(rankings, date)
    ensures var rows := AllocationRows(pool, rankings, standings);
      && DistinctKeys(rows, AllocationKey)
      && forall i :: 0 <= i < |rows| ==> AllocationKey(rows[i]).1 == date && i < |rankings| && rows[i].nodeId == rankings[i].nodeId
  {
    AllocationClosedForm(pool, rankings, standings, date);
  }

  /** Rebuilding the rewards of a date from its stored ranking makes them agree. */
  lemma EligibilityStepEstablishes(pool: real, e: Evidence, v: Derived, date: int, looks: seq<RewardLook>)
    requires KeyedBy(v.eligibility, EligibilityKey) && KeyedBy(v.allocations, AllocationKey)
    requires RankedList(RankingsOn(v, date), date)
    requires RewardsFound(e, RankingsOn(v, date), date, looks)
    ensures var after := EligibilityStep(pool, v, date, RankingsOn(v, date), looks);
      && RewardsAgree(pool, e, after, date, looks)
      && KeyedBy(after.eligibility, EligibilityKey) && KeyedBy(after.allocations, AllocationKey)
      && forall other :: other != date ==> SameRewards(after, v, other)
  {
    hide Replaced, FromRows, AllocationRows, RewardFound, RankedList, Sorting;
    var rankings := RankingsOn(v, date);
    var rows := NewEligibility(rankings, looks);
    EligibilityRowsKeyed(rankings, Claims(rankings, looks), date);
    AllocationRowsKeyed(pool, rankings, StandingsOf(rows), date);
    ReplacedDates(v.eligibility, date, rows, EligibilityKey);
    ReplacedDates(v.allocations, date, AllocationRows(pool, rankings, StandingsOf(rows)), AllocationKey);
  }

  /** Rebuilding the ranking of a date, and with it the rewards, makes the whole date agree. */
  lemma RankingStepEstablishes(pool: real, e: Evidence, registered: Registrations, v: Derived, date: int, looks: RankLooks)
    requires KeyedBy(v.bases, BaseKey) && KeyedBy(v.rankings, RankingKey)
    requires KeyedBy(v.eligibility, EligibilityKey) && KeyedBy(v.allocations, AllocationKey)
    requires RankLooksFound(e, OnDate(v.bases, date), registered, date, looks)
    ensures var after := RankingStep(pool, v, registered, date, looks);
      && DateCurrent(pool, e, registered, after, date)
      && KeyedBy(after.rankings, RankingKey)
      && KeyedBy(after.eligibility, EligibilityKey) && KeyedBy(after.allocations, AllocationKey)
      && forall other :: other != date ==> SameRanking(after, v, other) && SameRewards(after, v, other)
  {
    hide Ranked, RankingTable, RankedList, Replaced, Sorting, PlacementsFound, RewardFound, AllocationRows, NewEligibility, FromRows;
    var day := OnDate(v.bases, date);
    var rows := NewRankings(day, registered, looks);
    DayIsDistinct(v, date);
    RankingTableIsRanked(day, registered, date, looks, CopiedGroups(Ranked(day, registered, looks), looks.groups));
    RankedListKeeps(v, date, rows);
    var ranked := v.(rankings := Replaced(v.rankings, date, rows, RankingKey));
    EligibilityStepEstablishes(pool, e, ranked, date, looks.rewards);
    var after := RankingStep(pool, v, registered, date, looks);
    assert RewardsAgree(pool, e, after, date, looks.rewards);
    assert RankingAgrees(e, registered, after, date, looks, CopiedGroups(Ranked(day, registered, looks), looks.groups));
    forall other | other != date
      ensures SameRanking(after, v, other) && SameRewards(after, v, other)
    {
      assert SameRewards(after, ranked, other);
      assert OnDate(ranked.rankings, other) == OnDate(v.rankings, other);
    }
  }

  /** Where the ranking agrees, the stored rows form a ranked list of exactly the base records. */
  lemma CurrentRankingIsRanked(e: Evidence, registered: Registrations, v: Derived, date: int)
    requires KeyedBy(v.bases, BaseKey) && RankingCurrent(e, registered, v, date)
    ensures var rows := RankingsOn(v, date);
      && RankedList(rows, date)
      && (forall i :: 0 <= i < |rows| ==> rows[i].nodeId == rows[i].base.nodeId)
      && Enumerates(seq(|rows|, i requires 0 <= i < |rows| => rows[i].base), OnDate(v.bases, date).Values)
  {
    hide Ranked, RankingTable, Sorting, PlacementsFound, FromRows, RankedList, Enumerates, DistinctNodes;
    var looks, groups :| RankingAgrees(e, registered, v, date, looks, groups);
    var day := OnDate(v.bases, date);
    DayIsDistinct(v, date);
    RankingTableIsRanked(day, registered, date, looks, groups);
    StoredRankingsRanked(v, date, RankingTable(day, registered, looks, groups));
  }

  // ---- Keeping agreement ----

  /** Every scan result of the date stays valid. */
  ghost predicate StillFound<X(!new)>(m: map<string, Observation<X>>, n: map<string, Observation<X>>, date: int) {
    forall nodeId, found :: IsLatest(m, nodeId, date, found) ==> IsLatest(n, nodeId, date, found)
  }

  lemma StillFoundElsewhere<X(!new)>(m: map<string, Observation<X>>, e: Observation<X>, date: int)
    requires e.ref !in m && TextDate(e.observedAt) != date
    ensures StillFound(m, m[e.ref := e], date)
  {
    forall nodeId, found | IsLatest(m, nodeId, date, found)
      ensures IsLatest(m[e.ref := e], nodeId, date, found)
    {
      LatestUnaffected(m, e, nodeId, date, found);
    }
  }

  /** A ranking stays in agreement as long as the placements found for the date, its base records
      and rows, and the registration times of its nodes stay the same. */
  lemma RankingKept(e: Evidence, f: Evidence, registered: Registrations, later: Registrations, v: Derived, w: Derived, date: int)
    requires KeyedBy(v.bases, BaseKey)
    requires RankingCurrent(e, registered, v, date)
    requires StillFound(e.placements, f.placements, date) && SameRanking(v, w, date)
    requires forall b :: b in OnDate(v.bases, date).Values && b.nodeId in registered ==> b.nodeId in later && later[b.nodeId] == registered[b.nodeId]
    requires forall b :: b in OnDate(v.bases, date).Values ==> b.nodeId in registered
    ensures RankingCurrent(f, later, w, date)
  {
    hide RankingTable, Sorting, FromRows, DistinctNodes, IsLatest;
    var looks, groups :| RankingAgrees(e, registered, v, date, looks, groups);
    var day := OnDate(v.bases, date);
    DayIsDistinct(v, date);
    RankedOrderDependsOnRanked(day.Values, Scores(day, looks), registered, Scores(day, looks), later);
    assert RankingTable(day, registered, looks, groups) == RankingTable(day, later, looks, groups) by {
      SameOrderSameTable(day, registered, later, looks, groups);
    }
    assert RankingAgrees(f, later, w, date, looks, groups);
  }

  lemma SameOrderSameTable(day: Day, registered: Registrations, later: Registrations, looks: RankLooks, groups: seq<string>)
    requires Ranked(day, registered, looks) == Ranked(day, later, looks)
    ensures RankingTable(day, registered, looks, groups) == RankingTable(day, later, looks, groups)
  {
  }

  lemma RewardsKept(pool: real, e: Evidence, f: Evidence, v: Derived, w: Derived, date: int)
    requires RewardsCurrent(pool, e, v, date)
    requires StillFound(e.groups, f.groups, date) && StillFound(e.domains, f.domains, date) && StillFound(e.planes, f.planes, date)
    requires OnDate(v.rankings, date) == OnDate(w.rankings, date) && SameRewards(v, w, date)
    ensures RewardsCurrent(pool, f, w, date)
  {
    var looks :| RewardsAgree(pool, e, v, date, looks);
    assert RewardsAgree(pool, f, w, date, looks);
  }

  /** When no two observations of a node share a time, agreement means equality: rebuilding a date
      that agrees stores the very rows that are already there, except that the copied group may be
      refreshed. */
  lemma RebuildRankingChangesNothing(e: Evidence, registered: Registrations, v: Derived, date: int, looks: RankLooks)
    requires KeyedBy(v.bases, BaseKey)
    requires Determined(e.placements) && RankingCurrent(e, registered, v, date)
    requires RankLooksFound(e, OnDate(v.bases, date), registered, date, looks)
    ensures var now, then_ := NewRankings(OnDate(v.bases, date), registered, looks), RankingsOn(v, date);
      && |now| == |then_|
      && forall i :: 0 <= i < |now| ==> now[i] == then_[i].(operatorGroupId := now[i].operatorGroupId)
  {
    hide Sorting, FromRows, DistinctNodes, IsLatest, RankedOrder, RankedList, Determined, Enumerates;
    var old_, groups :| RankingAgrees(e, registered, v, date, old_, groups);
    var day := OnDate(v.bases, date);
    SamePlacements(e, Listing(day), date, old_.counted, looks.counted);
    SamePlacements(e, Listing(day), date, old_.scored, looks.scored);
    DayIsDistinct(v, date);
    RankingTableIsRanked(day, registered, date, old_, groups);
    StoredRankingsRanked(v, date, RankingTable(day, registered, old_, groups));
  }

  lemma SamePlacements(e: Evidence, records: seq<Base>, date: int, a: seq<Look>, b: seq<Look>)
    requires Determined(e.placements) && PlacementsFound(e, records, date, a) && PlacementsFound(e, records, date, b)
    ensures a == b
  {
    forall i | 0 <= i < |records|
      ensures a[i] == b[i]
    {
      LatestUnique(e.placements, records[i].nodeId, date, a[i], b[i]);
    }
  }

  lemma RebuildRewardsChangesNothing(pool: real, e: Evidence, v: Derived, date: int, looks: seq<RewardLook>)
    requires KeyedBy(v.eligibility, EligibilityKey) && KeyedBy(v.allocations, AllocationKey)
    requires RankedList(RankingsOn(v, date), date)
    requires Determined(e.groups) && Determined(e.domains) && Determined(e.planes)
    requires RewardsCurrent(pool, e, v, date) && RewardsFound(e, RankingsOn(v, date), date, looks)
    ensures EligibilityStep(pool, v, date, RankingsOn(v, date), looks) == v
  {
    var rankings := RankingsOn(v, date);
    var old_: seq<RewardLook> :| RewardsAgree(pool, e, v, date, old_);
    forall i | 0 <= i < |rankings|
      ensures old_[i] == looks[i]
    {
      LatestUnique(e.groups, rankings[i].nodeId, date, old_[i].group, looks[i].group);
      LatestUnique(e.domains, rankings[i].nodeId, date, old_[i].domain, looks[i].domain);
      LatestUnique(e.planes, rankings[i].nodeId, date, old_[i].plane, looks[i].plane);
    }
    assert old_ == looks;
    SplitByDate(v.eligibility, date);
    SplitByDate(v.allocations, date);
  }

  lemma SplitByDate<V(!new)>(m: map<NodeDate, V>, date: int)
    ensures OffDate(m, date) + OnDate(m, date) == m
  {
    var both := OffDate(m, date) + OnDate(m, date);
    assert forall k :: k in m ==> k in both && both[k] == m[k];
  }
}
