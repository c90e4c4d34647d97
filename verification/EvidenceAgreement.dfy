/** Exactly when an accepted piece of evidence keeps the stored rankings and rewards of every date in
    agreement: the store finds evidence by the date its time text starts with, the handlers rebuild the
    UTC date. */
module EvidenceAgreement {
  import opened Orders
  import opened Texts
  import opened Records
  import opened Counting
  import opened Tables
  import opened ProbeSummary
  import opened Qualification
  import opened RankingRules
  import opened AntiConcentration
  import opened Rewards
  import opened PortalState
  import opened Pipeline
  import opened Agreement
  import opened Portal
  import opened Views
  import opened Reachable
  import opened Guarantees

  // ---- What a scan finds after one more observation ----

  function Newer<X>(found: Option<Observation<X>>, e: Observation<X>, date: int): Option<Observation<X>> {
    if TextDate(e.observedAt) == date && (found.None? || StampLess(found.value.observedAt, e.observedAt)) then Some(e) else found
  }

  lemma NewerFound<X(!new)>(m: map<string, Observation<X>>, e: Observation<X>, nodeId: string, date: int, found: Option<Observation<X>>)
    requires e.ref !in m && IsLatest(m, nodeId, date, found)
    ensures IsLatest(m[e.ref := e], nodeId, date, if nodeId == e.nodeId then Newer(found, e, date) else found)
  {
    hide StampLess;
    if nodeId != e.nodeId || TextDate(e.observedAt) != date {
      LatestUnaffected(m, e, nodeId, date, found);
    } else {
      var n := m[e.ref := e];
      assert Candidate(n, nodeId, date, e.ref);
      StampLessTotal(e.observedAt, e.observedAt);
      if found.Some? {
        var ref :| Candidate(m, nodeId, date, ref) && m[ref] == found.value;
        assert Candidate(n, nodeId, date, ref);
        if StampLess(found.value.observedAt, e.observedAt) {
          LaterThanAll(m, nodeId, date, {}, found.value, e);
        }
      }
      assert forall ref :: Candidate(n, nodeId, date, ref) ==> ref == e.ref || Candidate(m, nodeId, date, ref);
    }
  }

  /** A stored candidate at least as late as the newcomer keeps the newcomer from being found. */
  lemma LateCandidateStays<X(!new)>(m: map<string, Observation<X>>, e: Observation<X>, date: int, found: Option<Observation<X>>, ref: string)
    requires IsLatest(m, e.nodeId, date, found) && Candidate(m, e.nodeId, date, ref)
    requires !StampLess(m[ref].observedAt, e.observedAt)
    ensures Newer(found, e, date) == found
  {
    hide StampLess;
    assert found.Some? && !StampLess(found.value.observedAt, m[ref].observedAt);
    StampLessTotal(found.value.observedAt, m[ref].observedAt);
    if StampLess(found.value.observedAt, e.observedAt) && found.value.observedAt != m[ref].observedAt {
      LessTransitive(m[ref].observedAt, found.value.observedAt, e.observedAt);
    }
  }

  lemma LessTransitive(a: Stamp, b: Stamp, c: Stamp)
    requires StampLess(a, b) && StampLess(b, c)
    ensures StampLess(a, c)
  {
    KeyLessTransitive(StampKey(a), StampKey(b), StampKey(c));
  }

  /** A stored candidate of the newcomer's node and text date is at least as late. */
  ghost predicate LateCandidate<X>(m: map<string, Observation<X>>, o: Observation<X>) {
    exists ref :: Candidate(m, o.nodeId, TextDate(o.observedAt), ref) && !StampLess(m[ref].observedAt, o.observedAt)
  }

  lemma NewerIff<X(!new)>(m: map<string, Observation<X>>, o: Observation<X>, found: Option<Observation<X>>)
    requires IsLatest(m, o.nodeId, TextDate(o.observedAt), found)
    ensures LateCandidate(m, o) ==> Newer(found, o, TextDate(o.observedAt)) == found
    ensures !LateCandidate(m, o) ==> Newer(found, o, TextDate(o.observedAt)) == Some(o)
  {
    hide StampLess;
    if LateCandidate(m, o) {
      var ref :| Candidate(m, o.nodeId, TextDate(o.observedAt), ref) && !StampLess(m[ref].observedAt, o.observedAt);
      LateCandidateStays(m, o, TextDate(o.observedAt), found, ref);
    }
  }

  // ---- A ranking is current exactly when its points are those of the evidence ----

  /** The stored points of a date are those that these looks give. */
  ghost predicate PointsAre(v: Derived, date: int, looks: seq<Look>) {
    var records := Listing(OnDate(v.bases, date));
    |looks| == |records| && forall k :: 0 <= k < |records| ==>
      && (records[k].nodeId, date) in v.rankings
      && v.rankings[(records[k].nodeId, date)].decentralization == PlacementScore(looks, looks[k])
  }

  lemma CurrentHasPoints(e: Evidence, registered: Registrations, v: Derived, date: int, looks: seq<Look>)
    requires TablesKeyed(v) && RankingCurrent(e, registered, v, date)
    requires Determined(e.placements) && PlacementsFound(e, Listing(OnDate(v.bases, date)), date, looks)
    ensures PointsAre(v, date, looks)
  {
    hide PlacementScore, PairwiseScore, BarsHarmless, Scores, Sorting, RankingAgrees, Determined, PlacementsFound, DistinctNodes, RowsMatch;
    var day := OnDate(v.bases, date);
    var found, groups :| RankingAgrees(e, registered, v, date, found, groups);
    AgreedLooks(e, registered, v, date, found, groups);
    SamePlacements(e, Listing(day), date, found.counted, looks);
    RowCarriesPoints(e, registered, v, date, found, groups);
    DayIsDistinct(v, date);
    PointsPairwise(e, day, date, found);
    StandsWhenCurrent(e, registered, v, date);
    StandingRowsMatch(registered, v, date);
    forall k | 0 <= k < |Listing(day)|
      ensures (Listing(day)[k].nodeId, date) in OnDate(v.rankings, date)
    {
      ListedBaseKey(v, date, k);
      RankedIffBase(v, (Listing(day)[k].nodeId, date));
    }
  }

  lemma {:induction false} ScoreMapCovers(records: seq<Base>, counted: seq<Look>, scored: seq<Look>)
    ensures forall k :: 0 <= k < |records| ==> records[k].nodeId in ScoreMap(records, counted, scored)
  {
    hide PlacementScore;
    if records != [] {
      ScoreMapCovers(records[..|records| - 1], counted, scored);
    }
  }

  /** The scores of a day are settled by its points. */
  lemma SameScores(e: Evidence, registered: Registrations, v: Derived, date: int, found: RankLooks, groups: seq<string>, looks: seq<Look>)
    requires TablesKeyed(v) && RankingAgrees(e, registered, v, date, found, groups)
    requires PointsAre(v, date, looks)
    ensures var day := OnDate(v.bases, date);
      forall k :: 0 <= k < |Listing(day)| ==>
        && Listing(day)[k].nodeId in Scores(day, found) && Listing(day)[k].nodeId in Scores(day, RankLooks(looks, looks, [], []))
        && Scores(day, found)[Listing(day)[k].nodeId] == Scores(day, RankLooks(looks, looks, [], []))[Listing(day)[k].nodeId]
  {
    hide PlacementScore, Sorting, RankingAgrees, DistinctNodes, ScoreMap;
    var day := OnDate(v.bases, date);
    var records := Listing(day);
    RowCarriesPoints(e, registered, v, date, found, groups);
    ScoreMapCovers(records, found.counted, found.scored);
    ScoreMapCovers(records, looks, looks);
    DayIsDistinct(v, date);
    ListingDistinct(day);
    forall k | 0 <= k < |records|
      ensures records[k].nodeId in Scores(day, found) && records[k].nodeId in Scores(day, RankLooks(looks, looks, [], []))
      ensures Scores(day, found)[records[k].nodeId] == Scores(day, RankLooks(looks, looks, [], []))[records[k].nodeId]
    {
      ScoreOfRecord(records, looks, looks, k);
      assert (records[k].nodeId, date) in OnDate(v.rankings, date);
    }
  }

  lemma ListingDistinct(day: Day)
    requires DistinctNodes(day.Values)
    ensures forall i, j :: 0 <= i < j < |Listing(day)| ==> Listing(day)[i].nodeId != Listing(day)[j].nodeId
  {
  }

  lemma SameScoresSameTable(day: Day, registered: Registrations, a: RankLooks, b: RankLooks, groups: seq<string>)
    requires DistinctNodes(day.Values)
    requires forall k :: 0 <= k < |Listing(day)| ==>
      && Listing(day)[k].nodeId in Scores(day, a) && Listing(day)[k].nodeId in Scores(day, b)
      && Scores(day, a)[Listing(day)[k].nodeId] == Scores(day, b)[Listing(day)[k].nodeId]
    ensures Ranked(day, registered, a) == Ranked(day, registered, b)
    ensures RankingTable(day, registered, a, groups) == RankingTable(day, registered, b, groups)
  {
    hide Scores, Sorting, DistinctNodes, TotalScore, RankKey;
    forall r | r in day.Values
      ensures r.nodeId in Scores(day, a) && r.nodeId in Scores(day, b) && Scores(day, a)[r.nodeId] == Scores(day, b)[r.nodeId]
    {
      ListedRow(day, BaseOrder, r);
      var k :| 0 <= k < |Listing(day)| && Listing(day)[k] == r;
    }
    RankedOrderDependsOnRanked(day.Values, Scores(day, a), registered, Scores(day, b), registered);
    var order := Ranked(day, registered, a);
    assert forall i :: 0 <= i < |order| ==> order[i] in day.Values;
  }

  /** A ranking that was current stays current under other evidence exactly when the stored points are
      those of the other evidence. */
  lemma CurrentIffPoints(e: Evidence, f: Evidence, registered: Registrations, v: Derived, date: int, looks: seq<Look>)
    requires TablesKeyed(v) && RankingCurrent(e, registered, v, date)
    requires Determined(f.placements) && PlacementsFound(f, Listing(OnDate(v.bases, date)), date, looks)
    ensures RankingCurrent(f, registered, v, date) <==> PointsAre(v, date, looks)
  {
    hide PointsAre, Scores, Sorting, Determined, PlacementsFound, DistinctNodes, Ranked, RankingTable, FromRows;
    if RankingCurrent(f, registered, v, date) {
      CurrentHasPoints(f, registered, v, date, looks);
    }
    if PointsAre(v, date, looks) {
      var day := OnDate(v.bases, date);
      var found, groups :| RankingAgrees(e, registered, v, date, found, groups);
      SameScores(e, registered, v, date, found, groups, looks);
      DayIsDistinct(v, date);
      SameScoresSameTable(day, registered, found, RankLooks(looks, looks, [], []), groups);
      assert RankingAgrees(f, registered, v, date, RankLooks(looks, looks, [], []), groups);
    }
  }

  // ---- Placements ----

  /** The looks of a date once the newcomer is stored. */
  function LooksWith(records: seq<Base>, looks: seq<Look>, e: Observation<Placement>, date: int): (later: seq<Look>)
    requires |looks| == |records|
    ensures |later| == |records|
  {
    seq(|records|, k requires 0 <= k < |records| => if records[k].nodeId == e.nodeId then Newer(looks[k], e, date) else looks[k])
  }

  ghost predicate PointsUnmoved(looks: seq<Look>, later: seq<Look>) {
    |looks| == |later| && forall k :: 0 <= k < |looks| ==> PlacementScore(later, later[k]) == PlacementScore(looks, looks[k])
  }

  lemma LooksWithFound(e: Evidence, records: seq<Base>, looks: seq<Look>, o: Observation<Placement>, date: int)
    requires PlacementsFound(e, records, date, looks) && o.ref !in e.placements
    ensures PlacementsFound(e.(placements := e.placements[o.ref := o]), records, date, LooksWith(records, looks, o, date))
  {
    hide IsLatest;
    forall k | 0 <= k < |records|
      ensures IsLatest(e.placements[o.ref := o], records[k].nodeId, date, LooksWith(records, looks, o, date)[k])
    {
      NewerFound(e.placements, o, records[k].nodeId, date, looks[k]);
    }
  }

  lemma DeterminedBefore<X>(m: map<string, Observation<X>>, o: Observation<X>)
    requires o.ref !in m && Determined(m[o.ref := o])
    ensures Determined(m)
  {
    var n := m[o.ref := o];
    forall r1, r2 | r1 in m && r2 in m && r1 != r2 && m[r1].nodeId == m[r2].nodeId
      ensures m[r1].observedAt != m[r2].observedAt
    {
      assert n[r1] == m[r1] && n[r2] == m[r2];
    }
  }

  /** On any date whose ranking was current: one more stored placement keeps it current exactly when it
      moves no points there. */
  lemma PlacementKeepsDateIff(e: Evidence, o: Observation<Placement>, registered: Registrations, v: Derived, date: int, looks: seq<Look>)
    requires TablesKeyed(v) && RankingCurrent(e, registered, v, date)
    requires o.ref !in e.placements && Determined(e.placements[o.ref := o])
    requires PlacementsFound(e, Listing(OnDate(v.bases, date)), date, looks)
    ensures RankingCurrent(e.(placements := e.placements[o.ref := o]), registered, v, date)
      <==> PointsUnmoved(looks, LooksWith(Listing(OnDate(v.bases, date)), looks, o, date))
  {
    hide RankingCurrent, PlacementScore, Determined, Sorting, IsLatest, LooksWith;
    var records := Listing(OnDate(v.bases, date));
    DeterminedBefore(e.placements, o);
    CurrentHasPoints(e, registered, v, date, looks);
    LooksWithFound(e, records, looks, o, date);
    CurrentIffPoints(e, e.(placements := e.placements[o.ref := o]), registered, v, date, LooksWith(records, looks, o, date));
  }

  // What one more placement does to the points, in terms of its own country and infrastructure.

  predicate InSameCountry(x: Look, y: Look) {
    x.Some? && y.Some? && x.value.what.countryCode == y.value.what.countryCode
  }

  predicate OnOneInfra(x: Look, y: Look) {
    x.Some? && y.Some? && CountedAsOne(x.value.what, y.value.what)
  }

  /** Some node other than the i-th and the j-th is in the country of the j-th. */
  ghost predicate OthersInCountry(looks: seq<Look>, i: nat, j: nat)
    requires j < |looks|
  {
    exists k :: 0 <= k < |looks| && k != i && k != j && InSameCountry(looks[k], looks[j])
  }

  ghost predicate OthersOnInfra(looks: seq<Look>, i: nat, j: nat)
    requires j < |looks|
  {
    exists k :: 0 <= k < |looks| && k != i && k != j && OnOneInfra(looks[k], looks[j])
  }

  /** The evidence would earn the country points, the infrastructure points, as that of the i-th node. */
  ghost predicate EarnsCountry(looks: seq<Look>, i: nat, x: Look) {
    x.Some? && x.value.what.countryCode != "" && forall k :: 0 <= k < |looks| && k != i ==> !InSameCountry(looks[k], x)
  }

  ghost predicate EarnsInfra(looks: seq<Look>, i: nat, x: Look) {
    x.Some? && NamesInfrastructure(x.value.what) && forall k :: 0 <= k < |looks| && k != i ==> !OnOneInfra(looks[k], x)
  }

  /** Replacing the evidence of the i-th node by `x` neither takes points from the j-th nor gives it any. */
  ghost predicate LeavesAlone(looks: seq<Look>, i: nat, x: Look, j: nat)
    requires i < |looks| && j < |looks|
  {
    looks[j].Some? ==>
      && (looks[j].value.what.countryCode != "" ==>
           OthersInCountry(looks, i, j) || (InSameCountry(looks[i], looks[j]) <==> InSameCountry(x, looks[j])))
      && (NamesInfrastructure(looks[j].value.what) ==>
           OthersOnInfra(looks, i, j) || (OnOneInfra(looks[i], looks[j]) <==> OnOneInfra(x, looks[j])))
  }

  /** As evidence of the i-th node, the newcomer earns what the evidence before it did, and leaves all
      other nodes alone. */
  ghost predicate NewcomerInert(looks: seq<Look>, i: nat, x: Look)
    requires i < |looks|
  {
    && (EarnsCountry(looks, i, x) <==> EarnsCountry(looks, i, looks[i]))
    && (EarnsInfra(looks, i, x) <==> EarnsInfra(looks, i, looks[i]))
    && forall j :: 0 <= j < |looks| && j != i ==> LeavesAlone(looks, i, x, j)
  }

  /** The points of a node are those its evidence earns. */
  lemma PointsAreEarned(looks: seq<Look>, j: nat)
    requires j < |looks|
    ensures PlacementScore(looks, looks[j])
      == (if EarnsCountry(looks, j, looks[j]) then 20.0 else 0.0) + (if EarnsInfra(looks, j, looks[j]) then 10.0 else 0.0)
  {
    hide Count, InCountry, OnInfra, InfraOf, Blank, CountedAsOne;
    if looks[j].Some? {
      if looks[j].value.what.countryCode != "" {
        CountryAlone(looks, j);
      }
      InfraAlone(looks, j);
    }
  }

  lemma EarnedUnmoved(looks: seq<Look>, i: nat, x: Look, j: nat)
    requires i < |looks| && j < |looks| && j != i
    ensures var later := looks[i := x];
      (EarnsCountry(later, j, looks[j]) <==> EarnsCountry(looks, j, looks[j])) && (EarnsInfra(later, j, looks[j]) <==> EarnsInfra(looks, j, looks[j]))
      <==> LeavesAlone(looks, i, x, j)
  {
    hide CountedAsOne, InSameCountry, OnOneInfra, NamesInfrastructure;
    NoneShares(looks[j]);
    CountryEarned(looks, i, x, j);
    CountryEarned(looks, i, looks[i], j);
    assert looks[i := looks[i]] == looks;
  }

  lemma NoneShares(y: Look)
    ensures y.None? ==> forall x: Look :: !InSameCountry(x, y) && !OnOneInfra(x, y)
  {
  }

  /** Whether the j-th node earns points, by what the i-th node's evidence is. */
  lemma CountryEarned(looks: seq<Look>, i: nat, x: Look, j: nat)
    requires i < |looks| && j < |looks| && j != i
    ensures var later := looks[i := x];
      && (EarnsCountry(later, j, looks[j]) <==>
           looks[j].Some? && looks[j].value.what.countryCode != "" && !OthersInCountry(looks, i, j) && !InSameCountry(x, looks[j]))
      && (EarnsInfra(later, j, looks[j]) <==>
           looks[j].Some? && NamesInfrastructure(looks[j].value.what) && !OthersOnInfra(looks, i, j) && !OnOneInfra(x, looks[j]))
  {
    hide CountedAsOne, InSameCountry, OnOneInfra, NamesInfrastructure;
    var later := looks[i := x];
    assert later[i] == x;
    assert forall k :: 0 <= k < |looks| && k != i ==> later[k] == looks[k];
  }

  lemma OwnEarned(looks: seq<Look>, i: nat, x: Look)
    requires i < |looks|
    ensures EarnsCountry(looks[i := x], i, x) <==> EarnsCountry(looks, i, x)
    ensures EarnsInfra(looks[i := x], i, x) <==> EarnsInfra(looks, i, x)
  {
    hide CountedAsOne, InSameCountry, OnOneInfra, NamesInfrastructure;
    assert forall k :: 0 <= k < |looks| && k != i ==> looks[i := x][k] == looks[k];
  }

  /** New evidence of one node moves no points exactly when it is inert. */
  lemma UnmovedIffInert(looks: seq<Look>, i: nat, x: Look)
    requires i < |looks|
    ensures PointsUnmoved(looks, looks[i := x]) <==> NewcomerInert(looks, i, x)
  {
    hide PlacementScore, EarnsCountry, EarnsInfra, LeavesAlone;
    var later := looks[i := x];
    OwnEarned(looks, i, x);
    PointsAreEarned(later, i);
    PointsAreEarned(looks, i);
    forall j | 0 <= j < |looks| && j != i
      ensures PlacementScore(later, later[j]) == PlacementScore(looks, looks[j]) <==> LeavesAlone(looks, i, x, j)
    {
      PointsAreEarned(later, j);
      PointsAreEarned(looks, j);
      EarnedUnmoved(looks, i, x, j);
    }
  }

  /** What a caller can check before sending a placement: its time text names its UTC date; or its node
      has no base record on the date the text names; or a stored placement of the node there is at least
      as late; or, as the node's evidence on that date, it earns what the evidence there earned and
      neither takes points from another ranked node nor gives it any. */
  ghost predicate PlacementHarmless(s: State, o: Observation<Placement>, looks: seq<Look>)
    requires |looks| == |Listing(OnDate(s.derived.bases, TextDate(o.observedAt)))|
  {
    var date := TextDate(o.observedAt);
    var records := Listing(OnDate(s.derived.bases, date));
    || Aligned(o.observedAt)
    || (o.nodeId, date) !in s.derived.bases
    || LateCandidate(s.evidence.placements, o)
    || forall i :: 0 <= i < |records| && records[i].nodeId == o.nodeId ==> NewcomerInert(looks, i, Some(o))
  }

  /** Away from its text date a placement moves nothing. */
  lemma UnmovedElsewhere(records: seq<Base>, looks: seq<Look>, o: Observation<Placement>, date: int)
    requires |looks| == |records|
    requires TextDate(o.observedAt) != date || forall k :: 0 <= k < |records| ==> records[k].nodeId != o.nodeId
    ensures PointsUnmoved(looks, LooksWith(records, looks, o, date))
  {
    hide PlacementScore, StampLess;
    assert LooksWith(records, looks, o, date) == looks;
  }

  lemma UnmovedByLate(e: Evidence, records: seq<Base>, looks: seq<Look>, o: Observation<Placement>, date: int, ref: string)
    requires PlacementsFound(e, records, date, looks) && Candidate(e.placements, o.nodeId, date, ref)
    requires !StampLess(e.placements[ref].observedAt, o.observedAt)
    ensures PointsUnmoved(looks, LooksWith(records, looks, o, date))
  {
    hide PlacementScore, StampLess, IsLatest;
    forall k | 0 <= k < |records|
      ensures LooksWith(records, looks, o, date)[k] == looks[k]
    {
      if records[k].nodeId == o.nodeId {
        LateCandidateStays(e.placements, o, date, looks[k], ref);
      }
    }
    assert LooksWith(records, looks, o, date) == looks;
  }

  /** Where it supersedes what was found, it replaces the look of its node. */
  lemma LooksWithReplaces(records: seq<Base>, looks: seq<Look>, o: Observation<Placement>, date: int, i: nat)
    requires |looks| == |records| && i < |records| && records[i].nodeId == o.nodeId
    requires forall k, m :: 0 <= k < m < |records| ==> records[k].nodeId != records[m].nodeId
    requires Newer(looks[i], o, date) == Some(o)
    ensures LooksWith(records, looks, o, date) == looks[i := Some(o)]
  {
    hide Newer;
  }

  /** On its text date a placement that is not aligned is harmless exactly when it moves no points. */
  lemma HarmlessIffUnmoved(s: State, o: Observation<Placement>, looks: seq<Look>)
    requires TablesKeyed(s.derived) && !Aligned(o.observedAt)
    requires PlacementsFound(s.evidence, Listing(OnDate(s.derived.bases, TextDate(o.observedAt))), TextDate(o.observedAt), looks)
    ensures PlacementHarmless(s, o, looks)
      <==> PointsUnmoved(looks, LooksWith(Listing(OnDate(s.derived.bases, TextDate(o.observedAt))), looks, o, TextDate(o.observedAt)))
  {
    hide PlacementScore, StampLess, IsLatest, PointsUnmoved, LooksWith, Sorting, NewcomerInert, LateCandidate, Newer, DistinctNodes;
    var date := TextDate(o.observedAt);
    var day := OnDate(s.derived.bases, date);
    var records := Listing(day);
    DayIsDistinct(s.derived, date);
    ListingDistinct(day);
    if (o.nodeId, date) !in s.derived.bases {
      forall k | 0 <= k < |records|
        ensures records[k].nodeId != o.nodeId
      {
        ListedBaseKey(s.derived, date, k);
      }
      UnmovedElsewhere(records, looks, o, date);
    } else if LateCandidate(s.evidence.placements, o) {
      LateUnmoved(s.evidence, records, looks, o);
    } else {
      var i := BaseListed(s.derived, o.nodeId, date);
      NewerIff(s.evidence.placements, o, looks[i]);
      LooksWithReplaces(records, looks, o, date, i);
      UnmovedIffInert(looks, i, Some(o));
    }
  }

  lemma LateUnmoved(e: Evidence, records: seq<Base>, looks: seq<Look>, o: Observation<Placement>)
    requires PlacementsFound(e, records, TextDate(o.observedAt), looks) && LateCandidate(e.placements, o)
    ensures PointsUnmoved(looks, LooksWith(records, looks, o, TextDate(o.observedAt)))
  {
    hide PointsUnmoved, LooksWith, IsLatest, StampLess;
    var ref :| Candidate(e.placements, o.nodeId, TextDate(o.observedAt), ref) && !StampLess(e.placements[ref].observedAt, o.observedAt);
    UnmovedByLate(e, records, looks, o, TextDate(o.observedAt), ref);
  }

  lemma BaseListed(v: Derived, n: string, date: int) returns (i: nat)
    requires KeyedBy(v.bases, BaseKey) && (n, date) in v.bases
    ensures var records := Listing(OnDate(v.bases, date)); i < |records| && records[i].nodeId == n
  {
    hide Sorting;
    var day := OnDate(v.bases, date);
    assert day[(n, date)] == v.bases[(n, date)] && BaseKey(v.bases[(n, date)]) == (n, date);
    ListedRow(day, BaseOrder, day[(n, date)]);
    i :| 0 <= i < |Listing(day)| && Listing(day)[i] == day[(n, date)];
  }

  /** The rankings of every date. */
  ghost predicate RankingsCurrent(s: State) {
    forall date :: RankingCurrent(s.evidence, RegistrationsOf(s.nodes), s.derived, date)
  }

  /** An accepted placement keeps the rankings of all dates current if and only if it is harmless. */
  lemma PlacementKeepsRankingsIff(c: Config, s: State, r: EvidenceRequest, env: Env, looks: seq<Look>)
    requires r.PlacementRequest? && EvidenceError(c, s, r, env.now).None?
    requires TablesKeyed(s.derived) && RankingsCurrent(s)
    requires Determined(WithEvidence(s.evidence, r).placements)
    requires LooksFound(c, Noted(c, s, SendEvidence(r), env.now), RebuildOf(SendEvidence(r)), env)
    requires var date := TextDate(r.header.observedAt.t);
      PlacementsFound(s.evidence, Listing(OnDate(s.derived.bases, date)), date, looks)
    ensures RankingsCurrent(Settled(c, s, SendEvidence(r), env))
      <==> PlacementHarmless(s, WithEvidence(s.evidence, r).placements[r.header.ref], looks)
  {
    hide RankingCurrent, Determined, PlacementsFound, Sorting, RankingStep, PlacementHarmless, RankLooksFound, Trim, Upper;
    var o := WithEvidence(s.evidence, r).placements[r.header.ref];
    var (u, d) := (UtcDate(o.observedAt), TextDate(o.observedAt));
    var registered := RegistrationsOf(s.nodes);
    var f := s.evidence.(placements := s.evidence.placements[o.ref := o]);
    var v := RankingStep(c.nominalPool, s.derived, registered, u, env.looks.ranks);
    assert Settled(c, s, SendEvidence(r), env) == s.(evidence := f, derived := v);
    RankingStepEstablishes(c.nominalPool, f, registered, s.derived, u, env.looks.ranks);
    forall date | date != u
      ensures RankingCurrent(f, registered, v, date) <==> RankingCurrent(f, registered, s.derived, date)
    {
      SameTablesSameRanking(f, registered, v, s.derived, date);
      SameTablesSameRanking(f, registered, s.derived, v, date);
    }
    forall date | date != d
      ensures RankingCurrent(f, registered, s.derived, date)
    {
      ElsewhereCurrent(s.evidence, o, registered, s.derived, date);
    }
    PlacementKeepsDateIff(s.evidence, o, registered, s.derived, d, looks);
    if !Aligned(o.observedAt) {
      HarmlessIffUnmoved(s, o, looks);
    }
    HarmlessWhenAligned(s, o, looks);
  }

  lemma HarmlessWhenAligned(s: State, o: Observation<Placement>, looks: seq<Look>)
    requires PlacementsFound(s.evidence, Listing(OnDate(s.derived.bases, TextDate(o.observedAt))), TextDate(o.observedAt), looks)
    ensures Aligned(o.observedAt) ==> PlacementHarmless(s, o, looks)
  {
    hide NewcomerInert, LateCandidate, Sorting;
  }

  lemma ElsewhereCurrent(e: Evidence, o: Observation<Placement>, registered: Registrations, v: Derived, date: int)
    requires o.ref !in e.placements && TextDate(o.observedAt) != date
    requires RankingCurrent(e, registered, v, date)
    ensures RankingCurrent(e.(placements := e.placements[o.ref := o]), registered, v, date)
  {
    hide Sorting, FromRows, RankingTable, IsLatest;
    StillFoundElsewhere(e.placements, o, date);
    var looks, groups :| RankingAgrees(e, registered, v, date, looks, groups);
    assert RankingAgrees(e.(placements := e.placements[o.ref := o]), registered, v, date, looks, groups);
  }

  // ---- Rewards ----

  /** The claims of the i-th ranked node show alike in its eligibility row. */
  ghost predicate ClaimAlike(a: seq<Claim>, b: seq<Claim>, i: nat)
    requires i < |a| && i < |b|
  {
    && Exclusion(a, i) == Exclusion(b, i)
    && a[i].group == b[i].group
    && (Exclusion(a, i) == SameRegistrableDomain ==> a[i].domain == b[i].domain)
    && (Exclusion(a, i) == SameSharedControlPlane ==> a[i].plane == b[i].plane && a[i].classification == b[i].classification)
  }

  ghost predicate ClaimsAlike(a: seq<Claim>, b: seq<Claim>) {
    |a| == |b| && forall i :: 0 <= i < |a| ==> ClaimAlike(a, b, i)
  }

  lemma ExclusionNamesClaim(claims: seq<Claim>, i: nat)
    requires i < |claims|
    ensures Exclusion(claims, i) == SameRegistrableDomain ==> claims[i].domain.Some?
    ensures Exclusion(claims, i) == SameSharedControlPlane ==> claims[i].plane.Some?
  {
  }

  lemma RowAlikeIff(r: Ranking, a: seq<Claim>, b: seq<Claim>, i: nat)
    requires i < |a| && i < |b|
    ensures RowOf(r, a[i], Exclusion(a, i)) == RowOf(r, b[i], Exclusion(b, i)) <==> ClaimAlike(a, b, i)
  {
    hide Exclusion;
    ExclusionNamesClaim(a, i);
    ExclusionNamesClaim(b, i);
  }

  lemma RowsAlikeIff(rankings: seq<Ranking>, a: seq<Claim>, b: seq<Claim>)
    requires |a| == |rankings| == |b|
    ensures EligibilityRows(rankings, a) == EligibilityRows(rankings, b) <==> ClaimsAlike(a, b)
  {
    hide Exclusion, RowOf, ClaimAlike;
    var (x, y) := (EligibilityRows(rankings, a), EligibilityRows(rankings, b));
    forall i | 0 <= i < |rankings|
      ensures x[i] == y[i] <==> ClaimAlike(a, b, i)
    {
      RowAlikeIff(rankings[i], a, b, i);
    }
  }

  ghost predicate RewardsDetermined(e: Evidence) {
    Determined(e.groups) && Determined(e.domains) && Determined(e.planes)
  }

  lemma SameRewardLooks(e: Evidence, rankings: seq<Ranking>, date: int, a: seq<RewardLook>, b: seq<RewardLook>)
    requires RewardsDetermined(e) && RewardsFound(e, rankings, date, a) && RewardsFound(e, rankings, date, b)
    ensures a == b
  {
    hide Determined, IsLatest;
    forall i | 0 <= i < |rankings|
      ensures a[i] == b[i]
    {
      assert RewardFound(e, rankings[i].nodeId, date, a[i]) && RewardFound(e, rankings[i].nodeId, date, b[i]);
      LatestUnique(e.groups, rankings[i].nodeId, date, a[i].group, b[i].group);
      LatestUnique(e.domains, rankings[i].nodeId, date, a[i].domain, b[i].domain);
      LatestUnique(e.planes, rankings[i].nodeId, date, a[i].plane, b[i].plane);
    }
  }

  /** Rewards that were current stay current under other evidence exactly when the claims that it gives
      show alike in every row. */
  lemma RewardsCurrentIffAlike(pool: real, e: Evidence, f: Evidence, v: Derived, date: int, looks: seq<RewardLook>, later: seq<RewardLook>)
    requires RankedList(RankingsOn(v, date), date) && RewardsCurrent(pool, e, v, date)
    requires RewardsDetermined(e) && RewardsFound(e, RankingsOn(v, date), date, looks)
    requires RewardsDetermined(f) && RewardsFound(f, RankingsOn(v, date), date, later)
    ensures RewardsCurrent(pool, f, v, date)
      <==> ClaimsAlike(Claims(RankingsOn(v, date), later), Claims(RankingsOn(v, date), looks))
  {
    hide RewardsFound, RewardRows, RankedList, Sorting, Claims, ClaimsAlike, EligibilityRows, AllocationRows, RewardsDetermined, FromRows;
    var rankings := RankingsOn(v, date);
    var found: seq<RewardLook> :| RewardsAgree(pool, e, v, date, found);
    SameRewardLooks(e, rankings, date, found, looks);
    StoredEligibilityListed(pool, v, date, looks);
    RowsAlikeIff(rankings, Claims(rankings, later), Claims(rankings, looks));
    if RewardsCurrent(pool, f, v, date) {
      var other: seq<RewardLook> :| RewardsAgree(pool, f, v, date, other);
      SameRewardLooks(f, rankings, date, other, later);
      StoredEligibilityListed(pool, v, date, later);
    }
    if ClaimsAlike(Claims(rankings, later), Claims(rankings, looks)) {
      RowsTransfer(pool, v, date, looks, later);
      AgreementIsCurrent(pool, f, v, date, later);
    }
  }

  lemma RowsTransfer(pool: real, v: Derived, date: int, looks: seq<RewardLook>, later: seq<RewardLook>)
    requires RewardRows(pool, v, date, looks) && NewEligibility(RankingsOn(v, date), later) == NewEligibility(RankingsOn(v, date), looks)
    ensures RewardRows(pool, v, date, later)
  {
    hide Sorting, NewEligibility, AllocationRows, FromRows;
  }

  /** What is found for one ranked node once the request's evidence is stored. */
  function RewardLookWith(look: RewardLook, r: EvidenceRequest, f: Evidence, date: int): RewardLook {
    var ref := r.header.ref;
    match r
    case GroupRequest(_, _, _) => if ref in f.groups then look.(group := Newer(look.group, f.groups[ref], date)) else look
    case DomainRequest(_, _) => if ref in f.domains then look.(domain := Newer(look.domain, f.domains[ref], date)) else look
    case PlaneRequest(_, _, _, _) => if ref in f.planes then look.(plane := Newer(look.plane, f.planes[ref], date)) else look
    case _ => look
  }

  function RewardLooksWith(rankings: seq<Ranking>, looks: seq<RewardLook>, r: EvidenceRequest, f: Evidence, date: int): (later: seq<RewardLook>)
    requires |looks| == |rankings|
    ensures |later| == |rankings|
  {
    seq(|rankings|, i requires 0 <= i < |rankings| =>
      if rankings[i].nodeId == r.header.nodeId then RewardLookWith(looks[i], r, f, date) else looks[i])
  }

  predicate IsRewardEvidence(r: EvidenceRequest) {
    r.GroupRequest? || r.DomainRequest? || r.PlaneRequest?
  }

  lemma RewardLookWithFound(c: Config, s: State, r: EvidenceRequest, now: nat, nodeId: string, date: int, look: RewardLook)
    requires IsRewardEvidence(r) && EvidenceError(c, s, r, now).None?
    requires RewardFound(s.evidence, nodeId, date, look)
    ensures var f := WithEvidence(s.evidence, r);
      RewardFound(f, nodeId, date, if nodeId == r.header.nodeId then RewardLookWith(look, r, f, date) else look)
  {
    hide IsLatest, Newer, Trim, ReviewOf, Lower;
    var f, ref := WithEvidence(s.evidence, r), r.header.ref;
    match r
    case GroupRequest(_, _, _) => NewerFound(s.evidence.groups, f.groups[ref], nodeId, date, look.group);
    case DomainRequest(_, _) => NewerFound(s.evidence.domains, f.domains[ref], nodeId, date, look.domain);
    case PlaneRequest(_, _, _, _) => NewerFound(s.evidence.planes, f.planes[ref], nodeId, date, look.plane);
    case _ =>
  }

  lemma RewardLooksWithFound(c: Config, s: State, r: EvidenceRequest, now: nat, rankings: seq<Ranking>, date: int, looks: seq<RewardLook>)
    requires IsRewardEvidence(r) && EvidenceError(c, s, r, now).None?
    requires RewardsFound(s.evidence, rankings, date, looks)
    ensures var f := WithEvidence(s.evidence, r); RewardsFound(f, rankings, date, RewardLooksWith(rankings, looks, r, f, date))
  {
    hide RewardFound, RewardLookWith, EvidenceError;
    EvidenceFields(c, s, r, now);
    var f := WithEvidence(s.evidence, r);
    var later := RewardLooksWith(rankings, looks, r, f, date);
    forall i | 0 <= i < |rankings|
      ensures RewardFound(f, rankings[i].nodeId, date, later[i])
    {
      RewardLookWithFound(c, s, r, now, rankings[i].nodeId, date, looks[i]);
    }
  }

  lemma EvidenceFields(c: Config, s: State, r: EvidenceRequest, now: nat)
    requires EvidenceError(c, s, r, now).None?
    ensures FieldsError(r).None? && NumbersError(r).None? && r.header.observedAt.At?
  {
    hide FieldsError, NumbersError, RefTaken;
  }

  /** The rewards of every date. */
  ghost predicate AllRewardsCurrent(c: Config, s: State) {
    forall date :: RewardsCurrent(c.nominalPool, s.evidence, s.derived, date)
  }

  ghost predicate AllRanked(v: Derived) {
    forall date :: RankedList(RankingsOn(v, date), date)
  }

  // What one node's new claim does to the filter's outcome, in terms of that claim.

  ghost predicate GroupTaken(claims: seq<Claim>, k: nat)
    requires k < |claims|
  {
    exists j :: 0 <= j < k && SameGroup(claims[j], claims[k])
  }

  ghost predicate DomainTaken(claims: seq<Claim>, k: nat)
    requires k < |claims|
  {
    exists j :: 0 <= j < k && SameDomain(claims[j], claims[k])
  }

  ghost predicate PlaneTaken(claims: seq<Claim>, k: nat)
    requires k < |claims|
  {
    exists j :: 0 <= j < k && SamePlane(claims[j], claims[k])
  }

  /** A higher-ranked node other than the i-th takes it. */
  ghost predicate GroupTakenBesides(claims: seq<Claim>, i: nat, k: nat)
    requires k < |claims|
  {
    exists j :: 0 <= j < k && j != i && SameGroup(claims[j], claims[k])
  }

  ghost predicate DomainTakenBesides(claims: seq<Claim>, i: nat, k: nat)
    requires k < |claims|
  {
    exists j :: 0 <= j < k && j != i && SameDomain(claims[j], claims[k])
  }

  ghost predicate PlaneTakenBesides(claims: seq<Claim>, i: nat, k: nat)
    requires k < |claims|
  {
    exists j :: 0 <= j < k && j != i && SamePlane(claims[j], claims[k])
  }

  /** With the claim of the i-th node replaced by `x`, the lower-ranked k-th node is excluded for what it
      was excluded for, or stays rewarded: its group is taken as before; unless it is, its domain is; and
      unless that is, its control plane is. */
  ghost predicate OutcomeKept(claims: seq<Claim>, i: nat, x: Claim, k: nat)
    requires i < k < |claims|
  {
    && (GroupTakenBesides(claims, i, k) || (SameGroup(x, claims[k]) <==> SameGroup(claims[i], claims[k])))
    && (GroupTaken(claims, k) || (
         && (DomainTakenBesides(claims, i, k) || (SameDomain(x, claims[k]) <==> SameDomain(claims[i], claims[k])))
         && (DomainTaken(claims, k) ||
              PlaneTakenBesides(claims, i, k) || (SamePlane(x, claims[k]) <==> SamePlane(claims[i], claims[k])))))
  }

  /** The new claim of the i-th node shows alike in its own row and keeps every outcome below it. */
  ghost predicate ClaimInert(claims: seq<Claim>, i: nat, x: Claim)
    requires i < |claims|
  {
    ClaimAlike(claims[i := x], claims, i) && forall k :: i < k < |claims| ==> OutcomeKept(claims, i, x, k)
  }

  lemma ExclusionByTaken(claims: seq<Claim>, k: nat)
    requires k < |claims|
    ensures Exclusion(claims, k) ==
      if GroupTaken(claims, k) then SameOperatorGroup
      else if DomainTaken(claims, k) then SameRegistrableDomain
      else if PlaneTaken(claims, k) then SameSharedControlPlane
      else NoReason
  {
    hide SameGroup, SameDomain, SamePlane;
  }

  lemma TakenAfter(claims: seq<Claim>, i: nat, x: Claim, k: nat)
    requires i < k < |claims|
    ensures GroupTaken(claims[i := x], k) <==> GroupTakenBesides(claims, i, k) || SameGroup(x, claims[k])
    ensures DomainTaken(claims[i := x], k) <==> DomainTakenBesides(claims, i, k) || SameDomain(x, claims[k])
    ensures PlaneTaken(claims[i := x], k) <==> PlaneTakenBesides(claims, i, k) || SamePlane(x, claims[k])
  {
    hide SameGroup, SameDomain, SamePlane;
    var later := claims[i := x];
    assert later[i] == x && later[k] == claims[k];
    assert forall j :: 0 <= j < k && j != i ==> later[j] == claims[j];
  }

  lemma OutcomeKeptIff(claims: seq<Claim>, i: nat, x: Claim, k: nat)
    requires i < k < |claims|
    ensures Exclusion(claims[i := x], k) == Exclusion(claims, k) <==> OutcomeKept(claims, i, x, k)
  {
    hide SameGroup, SameDomain, SamePlane, GroupTaken, DomainTaken, PlaneTaken, GroupTakenBesides, DomainTakenBesides, PlaneTakenBesides, Exclusion;
    ExclusionByTaken(claims[i := x], k);
    ExclusionByTaken(claims, k);
    TakenAfter(claims, i, x, k);
    TakenAfter(claims, i, claims[i], k);
    assert claims[i := claims[i]] == claims;
  }

  lemma HigherOutcomesStay(claims: seq<Claim>, i: nat, x: Claim, k: nat)
    requires k < i < |claims|
    ensures Exclusion(claims[i := x], k) == Exclusion(claims, k)
  {
    hide SameGroup, SameDomain, SamePlane;
    assert forall j :: 0 <= j <= k ==> claims[i := x][j] == claims[j];
  }

  lemma AlikeElsewhere(claims: seq<Claim>, i: nat, x: Claim, k: nat)
    requires i < |claims| && k < |claims| && k != i
    ensures ClaimAlike(claims[i := x], claims, k) <==> (k > i ==> OutcomeKept(claims, i, x, k))
  {
    hide Exclusion, OutcomeKept;
    if k > i {
      OutcomeKeptIff(claims, i, x, k);
    } else {
      HigherOutcomesStay(claims, i, x, k);
    }
  }

  /** One node's new claim shows alike in every row exactly when it is inert. */
  lemma AlikeIffInert(claims: seq<Claim>, i: nat, x: Claim)
    requires i < |claims|
    ensures ClaimsAlike(claims[i := x], claims) <==> ClaimInert(claims, i, x)
  {
    hide ClaimAlike, OutcomeKept;
    var later := claims[i := x];
    if ClaimsAlike(later, claims) {
      assert ClaimAlike(later, claims, i);
      forall k | i < k < |claims|
        ensures OutcomeKept(claims, i, x, k)
      {
        assert ClaimAlike(later, claims, k);
        AlikeElsewhere(claims, i, x, k);
      }
    }
    if ClaimInert(claims, i, x) {
      forall k | 0 <= k < |claims|
        ensures ClaimAlike(later, claims, k)
      {
        if k != i {
          AlikeElsewhere(claims, i, x, k);
        }
      }
    }
  }

  /** What a caller can check before sending group, domain or control-plane evidence: its time text names
      its UTC date; or the claim that it gives its node on the date the text names, if that is ranked
      there, shows alike in the node's row and keeps every outcome below it. */
  ghost predicate RewardEvidenceHarmless(s: State, r: EvidenceRequest, f: Evidence, looks: seq<RewardLook>)
    requires r.header.observedAt.At? && |looks| == |RankingsOn(s.derived, TextDate(r.header.observedAt.t))|
  {
    var date := TextDate(r.header.observedAt.t);
    var rankings := RankingsOn(s.derived, date);
    || Aligned(r.header.observedAt.t)
    || forall i :: 0 <= i < |rankings| && rankings[i].nodeId == r.header.nodeId ==>
         ClaimInert(Claims(rankings, looks), i, ClaimOf(rankings[i], RewardLookWith(looks[i], r, f, date)))
  }

  /** The claims with the newcomer in place differ at most at its node. */
  lemma ClaimsWithNewcomer(rankings: seq<Ranking>, looks: seq<RewardLook>, r: EvidenceRequest, f: Evidence, date: int)
    requires RankedList(rankings, date) && |looks| == |rankings|
    ensures ClaimsAlike(Claims(rankings, RewardLooksWith(rankings, looks, r, f, date)), Claims(rankings, looks))
      <==> forall i :: 0 <= i < |rankings| && rankings[i].nodeId == r.header.nodeId ==>
             ClaimInert(Claims(rankings, looks), i, ClaimOf(rankings[i], RewardLookWith(looks[i], r, f, date)))
  {
    hide ClaimOf, RewardLookWith, ClaimInert, ClaimAlike, ClaimsAlike;
    var later, claims := RewardLooksWith(rankings, looks, r, f, date), Claims(rankings, looks);
    if i :| 0 <= i < |rankings| && rankings[i].nodeId == r.header.nodeId {
      assert forall k :: 0 <= k < |rankings| && k != i ==> rankings[k].nodeId != rankings[i].nodeId;
      var x := ClaimOf(rankings[i], RewardLookWith(looks[i], r, f, date));
      assert Claims(rankings, later) == claims[i := x];
      AlikeIffInert(claims, i, x);
    } else {
      assert later == looks;
      AlikeItself(claims);
    }
  }

  lemma AlikeItself(claims: seq<Claim>)
    ensures ClaimsAlike(claims, claims)
  {
    hide Exclusion;
  }

  /** Accepted group, domain or control-plane evidence keeps the rewards of all dates current if and only
      if it is harmless. */
  lemma RewardEvidenceKeepsRewardsIff(c: Config, s: State, r: EvidenceRequest, env: Env, looks: seq<RewardLook>)
    requires IsRewardEvidence(r) && EvidenceError(c, s, r, env.now).None?
    requires TablesKeyed(s.derived) && AllRanked(s.derived) && AllRewardsCurrent(c, s)
    requires RewardsDetermined(s.evidence) && RewardsDetermined(WithEvidence(s.evidence, r))
    requires LooksFound(c, Noted(c, s, SendEvidence(r), env.now), RebuildOf(SendEvidence(r)), env)
    requires var date := TextDate(r.header.observedAt.t); RewardsFound(s.evidence, RankingsOn(s.derived, date), date, looks)
    ensures AllRewardsCurrent(c, Settled(c, s, SendEvidence(r), env))
      <==> RewardEvidenceHarmless(s, r, WithEvidence(s.evidence, r), looks)
  {
    hide RewardsCurrent, RewardsDetermined, RewardsFound, Sorting, EligibilityStep, ClaimsAlike, Claims, RewardLooksWith, WithEvidence, EvidenceError, RankedList, ClaimInert, ClaimOf, RewardLookWith;
    EvidenceFields(c, s, r, env.now);
    RewardSettled(c, s, r, env);
    var f := WithEvidence(s.evidence, r);
    var (u, d) := (UtcDate(r.header.observedAt.t), TextDate(r.header.observedAt.t));
    var rankings := RankingsOn(s.derived, d);
    var v := EligibilityStep(c.nominalPool, s.derived, u, RankingsOn(s.derived, u), env.looks.ranks.rewards);
    RewardsElsewhere(c, s, r, env);
    RewardLooksWithFound(c, s, r, env.now, rankings, d, looks);
    FoundRewardsLength(s.evidence, rankings, d, looks);
    RewardsCurrentIffAlike(c.nominalPool, s.evidence, f, s.derived, d, looks, RewardLooksWith(rankings, looks, r, f, d));
    ClaimsWithNewcomer(rankings, looks, r, f, d);
  }

  lemma FoundRewardsLength(e: Evidence, rankings: seq<Ranking>, date: int, looks: seq<RewardLook>)
    requires RewardsFound(e, rankings, date, looks)
    ensures |looks| == |rankings|
  {
  }

  lemma RewardSettled(c: Config, s: State, r: EvidenceRequest, env: Env)
    requires IsRewardEvidence(r) && EvidenceError(c, s, r, env.now).None?
    ensures var u := UtcDate(r.header.observedAt.t);
      Settled(c, s, SendEvidence(r), env) == s.(evidence := WithEvidence(s.evidence, r),
        derived := EligibilityStep(c.nominalPool, s.derived, u, RankingsOn(s.derived, u), env.looks.ranks.rewards))
    ensures RebuildOf(SendEvidence(r)) == OnlyRewards(UtcDate(r.header.observedAt.t))
    ensures Noted(c, s, SendEvidence(r), env.now) == s.(evidence := WithEvidence(s.evidence, r))
  {
    hide EligibilityStep, WithEvidence, FieldsError, NumbersError, RefTaken;
  }

  /** Every date but the text date is current after the rebuild of the UTC date. */
  lemma RewardsElsewhere(c: Config, s: State, r: EvidenceRequest, env: Env)
    requires IsRewardEvidence(r) && EvidenceError(c, s, r, env.now).None?
    requires TablesKeyed(s.derived) && AllRanked(s.derived) && AllRewardsCurrent(c, s)
    requires LooksFound(c, Noted(c, s, SendEvidence(r), env.now), RebuildOf(SendEvidence(r)), env)
    ensures var t := Settled(c, s, SendEvidence(r), env);
      var (u, d) := (UtcDate(r.header.observedAt.t), TextDate(r.header.observedAt.t));
      && t.evidence == WithEvidence(s.evidence, r)
      && RewardsCurrent(c.nominalPool, t.evidence, t.derived, u)
      && (forall date :: date != u && date != d ==> RewardsCurrent(c.nominalPool, t.evidence, t.derived, date))
      && (forall date :: date != u ==>
           (RewardsCurrent(c.nominalPool, t.evidence, t.derived, date) <==> RewardsCurrent(c.nominalPool, t.evidence, s.derived, date)))
  {
    hide RewardsCurrent, RewardsFound, Sorting, EligibilityStep, WithEvidence, EvidenceError, RankedList, StillFound;
    EvidenceFields(c, s, r, env.now);
    RewardSettled(c, s, r, env);
    var f := WithEvidence(s.evidence, r);
    var (u, d) := (UtcDate(r.header.observedAt.t), TextDate(r.header.observedAt.t));
    var v := EligibilityStep(c.nominalPool, s.derived, u, RankingsOn(s.derived, u), env.looks.ranks.rewards);
    EligibilityStepEstablishes(c.nominalPool, f, s.derived, u, env.looks.ranks.rewards);
    StepKeepsRest(c.nominalPool, s.derived, u, RankingsOn(s.derived, u), env.looks.ranks.rewards);
    AgreementIsCurrent(c.nominalPool, f, v, u, env.looks.ranks.rewards);
    forall date | date != u
      ensures RewardsCurrent(c.nominalPool, f, v, date) <==> RewardsCurrent(c.nominalPool, f, s.derived, date)
      ensures date != d ==> RewardsCurrent(c.nominalPool, f, s.derived, date)
    {
      SameRowsFollow(c.nominalPool, v, s.derived, f, date);
      SameRowsFollow(c.nominalPool, s.derived, v, f, date);
      if date != d {
        RewardScansElsewhere(c, s, r, env.now, date);
        RewardsKept(c.nominalPool, s.evidence, f, s.derived, s.derived, date);
      }
    }
  }

  lemma AgreementIsCurrent(pool: real, e: Evidence, v: Derived, date: int, looks: seq<RewardLook>)
    requires RewardsAgree(pool, e, v, date, looks)
    ensures RewardsCurrent(pool, e, v, date)
  {
  }

  lemma RewardScansElsewhere(c: Config, s: State, r: EvidenceRequest, now: nat, date: int)
    requires IsRewardEvidence(r) && EvidenceError(c, s, r, now).None? && date != TextDate(r.header.observedAt.t)
    ensures RewardScansSurvive(s.evidence, WithEvidence(s.evidence, r), date)
  {
    hide StillFound, Trim, ReviewOf, Lower;
    var f, ref := WithEvidence(s.evidence, r), r.header.ref;
    NothingLost(s.evidence.groups, date);
    NothingLost(s.evidence.domains, date);
    NothingLost(s.evidence.planes, date);
    match r
    case GroupRequest(_, _, _) => StillFoundElsewhere(s.evidence.groups, f.groups[ref], date);
    case DomainRequest(_, _) => StillFoundElsewhere(s.evidence.domains, f.domains[ref], date);
    case PlaneRequest(_, _, _, _) => StillFoundElsewhere(s.evidence.planes, f.planes[ref], date);
    case _ =>
  }

  // ---- Checks and voting keys ----

  /** Every scan has something to find. */
  lemma {:induction false} LatestAmong<X(!new)>(m: map<string, Observation<X>>, nodeId: string, date: int, refs: set<string>) returns (found: Option<Observation<X>>)
    requires refs <= m.Keys
    ensures found.None? ==> forall ref :: ref in refs ==> !Candidate(m, nodeId, date, ref)
    ensures found.Some? ==> exists ref :: Candidate(m, nodeId, date, ref) && m[ref] == found.value
    ensures found.Some? ==> forall ref :: ref in refs && Candidate(m, nodeId, date, ref) ==> !StampLess(found.value.observedAt, m[ref].observedAt)
  {
    hide StampLess;
    found := None;
    if refs != {} {
      var ref :| ref in refs;
      found := LatestAmong(m, nodeId, date, refs - {ref});
      if Candidate(m, nodeId, date, ref) {
        var e := m[ref];
        StampLessTotal(e.observedAt, e.observedAt);
        if found.None? {
          found := Some(e);
        } else if StampLess(found.value.observedAt, e.observedAt) {
          forall other | other in refs && Candidate(m, nodeId, date, other)
            ensures !StampLess(e.observedAt, m[other].observedAt)
          {
            if other != ref && StampLess(e.observedAt, m[other].observedAt) {
              LessTransitive(found.value.observedAt, e.observedAt, m[other].observedAt);
              assert false;
            }
          }
          found := Some(e);
        }
      }
    }
  }

  lemma LatestExists<X(!new)>(m: map<string, Observation<X>>, nodeId: string, date: int) returns (found: Option<Observation<X>>)
    ensures IsLatest(m, nodeId, date, found)
  {
    found := LatestAmong(m, nodeId, date, m.Keys);
  }

  /** What is found once one more observation is stored. */
  lemma FoundAfter<X(!new)>(m: map<string, Observation<X>>, o: Observation<X>, k: NodeDate, found: Option<Observation<X>>, later: Option<Observation<X>>)
    requires o.ref !in m && Determined(m[o.ref := o])
    requires IsLatest(m, k.0, k.1, found) && IsLatest(m[o.ref := o], k.0, k.1, later)
    ensures later == if k.0 == o.nodeId then Newer(found, o, k.1) else found
  {
    hide IsLatest, Determined, StampLess;
    NewerFound(m, o, k.0, k.1, found);
    LatestUnique(m[o.ref := o], k.0, k.1, later, if k.0 == o.nodeId then Newer(found, o, k.1) else found);
  }

  predicate CheckPasses(found: Option<Observation<Check>>) {
    found.Some? && found.value.what.overallPassed
  }

  predicate KeyPasses(found: Option<Observation<VotingKey>>) {
    found.Some? && found.value.what.present && found.value.what.validForEpoch
  }

  /** The hardware gate of every stored decision is that of the latest stored check. */
  ghost predicate HardwareCurrent(s: State) {
    forall k, found :: k in s.derived.decisions && IsLatest(s.checks, k.0, k.1, found) ==>
      s.derived.decisions[k].hardwarePassed == CheckPasses(found)
  }

  ghost predicate KeysCurrent(s: State) {
    forall k, found :: k in s.derived.decisions && IsLatest(s.evidence.votingKeys, k.0, k.1, found) ==>
      s.derived.decisions[k].votingKeyPassed == KeyPasses(found)
  }

  /** The decisions after a node is re-graded. */
  lemma RegradedDecisions(c: Config, s: State, nodeId: string, date: int, env: Env)
    ensures var t := s.(derived := ArtifactStep(c, s, nodeId, date, env.now, env.looks));
      && t.derived.decisions.Keys == s.derived.decisions.Keys + {(nodeId, date)}
      && (forall k :: k in s.derived.decisions && k != (nodeId, date) ==> t.derived.decisions[k] == s.derived.decisions[k])
      && t.derived.decisions[(nodeId, date)].hardwarePassed == CheckPasses(env.looks.check)
      && t.derived.decisions[(nodeId, date)].votingKeyPassed == KeyPasses(env.looks.votingKey)
  {
    hide SummaryOf, RankingStep, CountBeats, Failures, BaseOf;
    RankingStepKeepsRest(c.nominalPool, GradeStep(c, s, nodeId, date, env.now, env.looks), RegistrationsOf(s.nodes), date, env.looks.ranks);
  }

  /** What a caller can check before sending a check: its time text names its UTC date; or no decision is
      stored for its node on the date the text names; or a stored check there is at least as late; or it
      says what that decision already says. */
  ghost predicate CheckHarmless(s: State, o: Observation<Check>) {
    var k := (o.nodeId, TextDate(o.observedAt));
    Aligned(o.observedAt) || k !in s.derived.decisions || LateCandidate(s.checks, o) || s.derived.decisions[k].hardwarePassed == CheckPasses(Some(o))
  }

  ghost predicate KeyHarmless(s: State, o: Observation<VotingKey>) {
    var k := (o.nodeId, TextDate(o.observedAt));
    Aligned(o.observedAt) || k !in s.derived.decisions || LateCandidate(s.evidence.votingKeys, o) || s.derived.decisions[k].votingKeyPassed == KeyPasses(Some(o))
  }

  lemma CheckSettled(c: Config, s: State, r: CheckRequest, env: Env)
    requires CheckError(c, s, r, env.now).None?
    ensures r.checkedAt.At? && r.overall.Some? && r.eventId !in s.checks
    ensures Noted(c, s, SendCheck(r), env.now) == WithCheck(s, r) && RebuildOf(SendCheck(r)) == Artifacts(r.nodeId, UtcDate(r.checkedAt.t))
    ensures Settled(c, s, SendCheck(r), env)
         == WithCheck(s, r).(derived := ArtifactStep(c, WithCheck(s, r), r.nodeId, UtcDate(r.checkedAt.t), env.now, env.looks))
  {
    hide ArtifactStep, AllPassed;
  }

  /** An accepted check keeps the hardware gates of all decisions current if and only if it is harmless. */
  lemma CheckKeepsHardwareIff(c: Config, s: State, r: CheckRequest, env: Env)
    requires CheckError(c, s, r, env.now).None? && HardwareCurrent(s) && Determined(WithCheck(s, r).checks)
    requires LooksFound(c, Noted(c, s, SendCheck(r), env.now), RebuildOf(SendCheck(r)), env)
    ensures HardwareCurrent(Settled(c, s, SendCheck(r), env)) <==> CheckHarmless(s, WithCheck(s, r).checks[r.eventId])
  {
    hide IsLatest, Determined, ArtifactStep, RankLooksFound, HardwareCurrent, CheckError, Settled, Noted, RebuildOf, CheckHarmless, GradeStep;
    CheckSettled(c, s, r, env);
    var o := WithCheck(s, r).checks[r.eventId];
    RegradedDecisions(c, WithCheck(s, r), r.nodeId, UtcDate(o.observedAt), env);
    HardwareAfter(s, Settled(c, s, SendCheck(r), env), o, env.looks.check);
  }

  lemma HardwareAfter(s: State, t: State, o: Observation<Check>, look: Option<Observation<Check>>)
    requires o.ref !in s.checks && t.checks == s.checks[o.ref := o] && Determined(t.checks) && HardwareCurrent(s)
    requires var key := (o.nodeId, UtcDate(o.observedAt));
      && t.derived.decisions.Keys == s.derived.decisions.Keys + {key}
      && (forall k :: k in s.derived.decisions && k != key ==> t.derived.decisions[k] == s.derived.decisions[k])
      && t.derived.decisions[key].hardwarePassed == CheckPasses(look) && IsLatest(t.checks, key.0, key.1, look)
    ensures HardwareCurrent(t) <==> CheckHarmless(s, o)
  {
    hide IsLatest, Determined, LateCandidate, Newer, StampLess;
    var (m, n) := (s.checks, t.checks);
    var key, text := (o.nodeId, UtcDate(o.observedAt)), (o.nodeId, TextDate(o.observedAt));
    forall k, later | k in t.derived.decisions && k != text && IsLatest(n, k.0, k.1, later)
      ensures t.derived.decisions[k].hardwarePassed == CheckPasses(later)
    {
      if k == key {
        LatestUnique(n, k.0, k.1, look, later);
      } else {
        var found := LatestExists(m, k.0, k.1);
        FoundAfter(m, o, k, found, later);
        NotNewer(found, o, k.1);
      }
    }
    if text != key && text in s.derived.decisions {
      var found := LatestExists(m, text.0, text.1);
      NewerFound(m, o, text.0, text.1, found);
      NewerIff(m, o, found);
      forall later | IsLatest(n, text.0, text.1, later)
        ensures later == Newer(found, o, text.1)
      {
        FoundAfter(m, o, text, found, later);
      }
      assert IsLatest(n, text.0, text.1, Newer(found, o, text.1)) && IsLatest(m, text.0, text.1, found);
      assert t.derived.decisions[text] == s.derived.decisions[text];
    }
    if text == key {
      forall later | IsLatest(n, text.0, text.1, later)
        ensures later == look
      {
        LatestUnique(n, text.0, text.1, look, later);
      }
    }
  }

  lemma NotNewer<X>(found: Option<Observation<X>>, o: Observation<X>, date: int)
    ensures TextDate(o.observedAt) != date ==> Newer(found, o, date) == found
  {
  }

  /** An accepted voting key keeps the voting-key gates of all decisions current if and only if it is
      harmless. */
  lemma VotingKeyKeepsGatesIff(c: Config, s: State, r: EvidenceRequest, env: Env)
    requires r.VotingKeyRequest? && EvidenceError(c, s, r, env.now).None? && KeysCurrent(s)
    requires Determined(WithEvidence(s.evidence, r).votingKeys)
    requires LooksFound(c, Noted(c, s, SendEvidence(r), env.now), RebuildOf(SendEvidence(r)), env)
    ensures KeysCurrent(Settled(c, s, SendEvidence(r), env)) <==> KeyHarmless(s, WithEvidence(s.evidence, r).votingKeys[r.header.ref])
  {
    hide IsLatest, Determined, RankingStep, ArtifactStep, RankLooksFound, KeysCurrent, LateCandidate, Newer, StampLess, KeyHarmless;
    var o := WithEvidence(s.evidence, r).votingKeys[r.header.ref];
    var noted := s.(evidence := WithEvidence(s.evidence, r));
    var t := Settled(c, s, SendEvidence(r), env);
    RegradedDecisions(c, noted, r.header.nodeId, UtcDate(o.observedAt), env);
    KeysAfter(s, t, o, env.looks.votingKey);
  }

  lemma KeysAfter(s: State, t: State, o: Observation<VotingKey>, look: Option<Observation<VotingKey>>)
    requires o.ref !in s.evidence.votingKeys && t.evidence.votingKeys == s.evidence.votingKeys[o.ref := o]
    requires Determined(t.evidence.votingKeys) && KeysCurrent(s)
    requires var key := (o.nodeId, UtcDate(o.observedAt));
      && t.derived.decisions.Keys == s.derived.decisions.Keys + {key}
      && (forall k :: k in s.derived.decisions && k != key ==> t.derived.decisions[k] == s.derived.decisions[k])
      && t.derived.decisions[key].votingKeyPassed == KeyPasses(look) && IsLatest(t.evidence.votingKeys, key.0, key.1, look)
    ensures KeysCurrent(t) <==> KeyHarmless(s, o)
  {
    hide IsLatest, Determined, LateCandidate, Newer, StampLess;
    var (m, n) := (s.evidence.votingKeys, t.evidence.votingKeys);
    var key, text := (o.nodeId, UtcDate(o.observedAt)), (o.nodeId, TextDate(o.observedAt));
    forall k, later | k in t.derived.decisions && k != text && IsLatest(n, k.0, k.1, later)
      ensures t.derived.decisions[k].votingKeyPassed == KeyPasses(later)
    {
      if k == key {
        LatestUnique(n, k.0, k.1, look, later);
      } else {
        var found := LatestExists(m, k.0, k.1);
        FoundAfter(m, o, k, found, later);
        NotNewer(found, o, k.1);
      }
    }
    if text != key && text in s.derived.decisions {
      var found := LatestExists(m, text.0, text.1);
      NewerFound(m, o, text.0, text.1, found);
      NewerIff(m, o, found);
      forall later | IsLatest(n, text.0, text.1, later)
        ensures later == Newer(found, o, text.1)
      {
        FoundAfter(m, o, text, found, later);
      }
      assert IsLatest(n, text.0, text.1, Newer(found, o, text.1)) && IsLatest(m, text.0, text.1, found);
      assert t.derived.decisions[text] == s.derived.decisions[text];
    }
    if text == key {
      forall later | IsLatest(n, text.0, text.1, later)
        ensures later == look
      {
        LatestUnique(n, text.0, text.1, look, later);
      }
    }
  }
}
