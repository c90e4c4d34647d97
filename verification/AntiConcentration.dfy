/** The anti-concentration filter: one pass down the ranking decides who may be rewarded. */
module AntiConcentration {
  import opened Records
  import opened Texts

  /** The evidence looked up for one ranked node. */
  datatype RewardLook = RewardLook(
    group: Option<Observation<GroupClaim>>,
    domain: Option<Observation<DomainClaim>>,
    plane: Option<Observation<ControlClaim>>)

  /** What a ranked node lays claim to. */
  datatype Claim = Claim(group: string, domain: Option<string>, plane: Option<string>, classification: string)

  /** Accepted group evidence names the group; without it the group copied into the ranking does,
      and without that the node itself. */
  function EffectiveGroup(r: Ranking, evidence: Option<Observation<GroupClaim>>): string {
    if evidence.Some? && evidence.value.what.review == Accepted && !Blank(evidence.value.what.operatorGroupId)
    then evidence.value.what.operatorGroupId
    else if r.operatorGroupId != "" then r.operatorGroupId
    else r.nodeId
  }

  function ClaimOf(r: Ranking, l: RewardLook): Claim {
    Claim(
      EffectiveGroup(r, l.group),
      if l.domain.Some? && !Blank(l.domain.value.what.registrableDomain)
      then Some(Lower(Trim(l.domain.value.what.registrableDomain))) else None,
      if l.plane.Some? && l.plane.value.what.review == Accepted && !Blank(l.plane.value.what.controlPlaneId)
      then Some(Trim(l.plane.value.what.controlPlaneId)) else None,
      if l.plane.Some? then l.plane.value.what.classification else "")
  }

  function LookAt(looks: seq<RewardLook>, i: nat): RewardLook {
    if i < |looks| then looks[i] else RewardLook(None, None, None)
  }

  function Claims(rankings: seq<Ranking>, looks: seq<RewardLook>): (claims: seq<Claim>)
    ensures |claims| == |rankings|
  {
    seq(|rankings|, i requires 0 <= i < |rankings| => ClaimOf(rankings[i], LookAt(looks, i)))
  }

  // ---- Closed form ----

  predicate SameGroup(a: Claim, b: Claim) {
    a.group == b.group
  }

  predicate SameDomain(a: Claim, b: Claim) {
    a.domain.Some? && a.domain == b.domain
  }

  predicate SamePlane(a: Claim, b: Claim) {
    a.plane.Some? && a.plane == b.plane
  }

  predicate Overlap(a: Claim, b: Claim) {
    SameGroup(a, b) || SameDomain(a, b) || SamePlane(a, b)
  }

  /** The first of group, domain and control plane that a higher-ranked node, rewarded or not, also
      has. */
  ghost function Exclusion(claims: seq<Claim>, i: nat): Reason
    requires i < |claims|
  {
    if exists j :: 0 <= j < i && SameGroup(claims[j], claims[i]) then SameOperatorGroup
    else if exists j :: 0 <= j < i && SameDomain(claims[j], claims[i]) then SameRegistrableDomain
    else if exists j :: 0 <= j < i && SamePlane(claims[j], claims[i]) then SameSharedControlPlane
    else NoReason
  }

  ghost predicate Eligible(claims: seq<Claim>, i: nat)
    requires i < |claims|
  {
    Exclusion(claims, i) == NoReason
  }

  function RowOf(r: Ranking, c: Claim, exclusion: Reason): Eligibility {
    Eligibility(
      r.nodeId, r.date, r.policyVersion, r.rank, c.group, exclusion == NoReason, exclusion,
      if exclusion == SameOperatorGroup then c.group else "",
      if exclusion == SameRegistrableDomain && c.domain.Some? then c.domain.value else "",
      if exclusion == SameSharedControlPlane && c.plane.Some? then c.plane.value else "",
      if exclusion == SameSharedControlPlane then c.classification else "")
  }

  ghost function EligibilityRows(rankings: seq<Ranking>, claims: seq<Claim>): (rows: seq<Eligibility>)
    requires |claims| == |rankings|
    ensures |rows| == |rankings|
  {
    seq(|rankings|, i requires 0 <= i < |rankings| => RowOf(rankings[i], claims[i], Exclusion(claims, i)))
  }

  // ---- The greedy pass ----

  ghost predicate SeenBy(claims: seq<Claim>, n: nat, groups: set<string>, domains: set<string>, planes: set<string>)
    requires n <= |claims|
  {
    && (forall g :: g in groups <==> exists j :: 0 <= j < n && claims[j].group == g)
    && (forall d :: d in domains <==> exists j :: 0 <= j < n && claims[j].domain == Some(d))
    && (forall p :: p in planes <==> exists j :: 0 <= j < n && claims[j].plane == Some(p))
  }

  /** One ranked node against what the nodes above it claimed. */
  method ClassifyClaim(ghost claims: seq<Claim>, ghost n: nat, c: Claim, groups: set<string>, domains: set<string>, planes: set<string>)
    returns (exclusion: Reason, groups': set<string>, domains': set<string>, planes': set<string>)
    requires n < |claims| && claims[n] == c && SeenBy(claims, n, groups, domains, planes)
    ensures exclusion == Exclusion(claims, n)
    ensures groups' == groups + {c.group}
    ensures domains' == if c.domain.Some? then domains + {c.domain.value} else domains
    ensures planes' == if c.plane.Some? then planes + {c.plane.value} else planes
  {
    groups', domains', planes' := groups, domains, planes;
    exclusion := NoReason;
    if c.group in groups {
      exclusion := SameOperatorGroup;
    } else {
      groups' := groups + {c.group};
    }
    assert c.group in groups <==> exists j :: 0 <= j < n && SameGroup(claims[j], claims[n]);
    if c.domain.Some? {
      if c.domain.value in domains && exclusion == NoReason {
        exclusion := SameRegistrableDomain;
      } else {
        domains' := domains + {c.domain.value};
      }
    }
    if c.plane.Some? {
      if c.plane.value in planes && exclusion == NoReason {
        exclusion := SameSharedControlPlane;
      } else {
        planes' := planes + {c.plane.value};
      }
    }
  }

  lemma SeenGrows(claims: seq<Claim>, n: nat, groups: set<string>, domains: set<string>, planes: set<string>)
    requires n < |claims| && SeenBy(claims, n, groups, domains, planes)
    ensures var c := claims[n];
      SeenBy(claims, n + 1, groups + {c.group},
        if c.domain.Some? then domains + {c.domain.value} else domains,
        if c.plane.Some? then planes + {c.plane.value} else planes)
  {
  }

  method FilterClaims(rankings: seq<Ranking>, claims: seq<Claim>) returns (rows: seq<Eligibility>)
    requires |claims| == |rankings|
    ensures rows == EligibilityRows(rankings, claims)
  {
    rows := [];
    var groups: set<string>, domains: set<string>, planes: set<string> := {}, {}, {};
    for n := 0 to |rankings|
      invariant SeenBy(claims, n, groups, domains, planes)
      invariant |rows| == n
      invariant forall i :: 0 <= i < n ==> rows[i] == RowOf(rankings[i], claims[i], Exclusion(claims, i))
    {
      SeenGrows(claims, n, groups, domains, planes);
      var exclusion;
      exclusion, groups, domains, planes := ClassifyClaim(claims, n, claims[n], groups, domains, planes);
      rows := rows + [RowOf(rankings[n], claims[n], exclusion)];
    }
  }

  // ---- What the filter guarantees ----

  /** A node is rewarded exactly when no higher-ranked node, rewarded or not, overlaps with it. */
  lemma EligibleIffNoHigherOverlap(claims: seq<Claim>, i: nat)
    requires i < |claims|
    ensures Eligible(claims, i) <==> forall j :: 0 <= j < i ==> !Overlap(claims[j], claims[i])
  {
    if Eligible(claims, i) {
      forall j | 0 <= j < i
        ensures !Overlap(claims[j], claims[i])
      {
        assert !SameGroup(claims[j], claims[i]) && !SameDomain(claims[j], claims[i]) && !SamePlane(claims[j], claims[i]);
      }
    }
    if forall j :: 0 <= j < i ==> !Overlap(claims[j], claims[i]) {
      assert forall j :: 0 <= j < i ==> !SameGroup(claims[j], claims[i]) && !SameDomain(claims[j], claims[i]) && !SamePlane(claims[j], claims[i]);
    }
  }

  /** No two rewarded nodes share a group, a domain or an accepted control plane; the first ranked
      node is always rewarded; and lower ranks never influence a decision. */
  lemma FilterGuarantees(claims: seq<Claim>, lower: seq<Claim>)
    ensures forall i, j :: 0 <= i < j < |claims| && Eligible(claims, i) && Eligible(claims, j) ==> !Overlap(claims[i], claims[j])
    ensures claims != [] ==> Eligible(claims, 0)
    ensures forall i :: 0 <= i < |claims| ==> Exclusion(claims + lower, i) == Exclusion(claims, i)
  {
    forall i, j | 0 <= i < j < |claims| && Eligible(claims, i) && Eligible(claims, j)
      ensures !Overlap(claims[i], claims[j])
    {
      EligibleIffNoHigherOverlap(claims, j);
    }
    forall i | 0 <= i < |claims|
      ensures Exclusion(claims + lower, i) == Exclusion(claims, i)
    {
      assert forall j :: 0 <= j <= i ==> (claims + lower)[j] == claims[j];
    }
  }

  // ---- The filter in terms of the evidence ----

  /** Accepted evidence that is not blank names the group; otherwise the ranking row does, and otherwise the
      node is its own group. */
  predicate GroupNamed(r: Ranking, l: RewardLook, group: string) {
    if l.group.Some? && l.group.value.what.review == Accepted && Trim(l.group.value.what.operatorGroupId) != ""
    then group == l.group.value.what.operatorGroupId
    else group == if r.operatorGroupId == "" then r.nodeId else r.operatorGroupId
  }

  /** The evidence names the same registrable domain, whatever the case and the blanks around it. */
  predicate OneDomain(a: RewardLook, b: RewardLook) {
    a.domain.Some? && b.domain.Some?
    && var (x, y) := (Trim(a.domain.value.what.registrableDomain), Trim(b.domain.value.what.registrableDomain));
       x != "" && y != "" && Lower(x) == Lower(y)
  }

  /** Both are accepted for the same control plane. */
  predicate OnePlane(a: RewardLook, b: RewardLook) {
    a.plane.Some? && b.plane.Some? && a.plane.value.what.review == Accepted && b.plane.value.what.review == Accepted
    && var (x, y) := (Trim(a.plane.value.what.controlPlaneId), Trim(b.plane.value.what.controlPlaneId));
       x != "" && x == y
  }

  ghost predicate GroupAbove(rankings: seq<Ranking>, looks: seq<RewardLook>, i: nat)
    requires i < |rankings| == |looks|
  {
    exists j, g :: 0 <= j < i && GroupNamed(rankings[j], looks[j], g) && GroupNamed(rankings[i], looks[i], g)
  }

  ghost predicate DomainAbove(looks: seq<RewardLook>, i: nat)
    requires i < |looks|
  {
    exists j :: 0 <= j < i && OneDomain(looks[j], looks[i])
  }

  ghost predicate PlaneAbove(looks: seq<RewardLook>, i: nat)
    requires i < |looks|
  {
    exists j :: 0 <= j < i && OnePlane(looks[j], looks[i])
  }

  lemma ClaimsOverlapAsEvidence(rankings: seq<Ranking>, looks: seq<RewardLook>, j: nat, i: nat)
    requires j < |rankings| == |looks| && i < |rankings|
    ensures var claims := Claims(rankings, looks);
      && GroupNamed(rankings[i], looks[i], claims[i].group)
      && (SameGroup(claims[j], claims[i]) <==> exists g :: GroupNamed(rankings[j], looks[j], g) && GroupNamed(rankings[i], looks[i], g))
      && (SameDomain(claims[j], claims[i]) <==> OneDomain(looks[j], looks[i]))
      && (SamePlane(claims[j], claims[i]) <==> OnePlane(looks[j], looks[i]))
  {
    hide Trim, Lower;
  }

  /** What happens to the i-th ranked node, said of the evidence found: it is excluded for a group that a
      higher-ranked node has; else for a domain; else for a control plane that both are accepted for;
      else it is rewarded.  The row shows the group, and what it was excluded for. */
  lemma ExclusionInEvidence(rankings: seq<Ranking>, looks: seq<RewardLook>, i: nat)
    requires i < |rankings| == |looks|
    ensures var row := EligibilityRows(rankings, Claims(rankings, looks))[i];
      && row.exclusion == (
           if GroupAbove(rankings, looks, i) then SameOperatorGroup
           else if DomainAbove(looks, i) then SameRegistrableDomain
           else if PlaneAbove(looks, i) then SameSharedControlPlane
           else NoReason)
      && (row.eligible <==> !GroupAbove(rankings, looks, i) && !DomainAbove(looks, i) && !PlaneAbove(looks, i))
      && GroupNamed(rankings[i], looks[i], row.operatorGroupId)
      && row.nodeId == rankings[i].nodeId && row.rank == rankings[i].rank
  {
    hide GroupNamed, OneDomain, OnePlane, SameGroup, SameDomain, SamePlane, ClaimOf;
    var claims := Claims(rankings, looks);
    forall j | 0 <= j < i
      ensures SameGroup(claims[j], claims[i]) <==> exists g :: GroupNamed(rankings[j], looks[j], g) && GroupNamed(rankings[i], looks[i], g)
      ensures SameDomain(claims[j], claims[i]) <==> OneDomain(looks[j], looks[i])
      ensures SamePlane(claims[j], claims[i]) <==> OnePlane(looks[j], looks[i])
    {
      ClaimsOverlapAsEvidence(rankings, looks, j, i);
    }
    ClaimsOverlapAsEvidence(rankings, looks, i, i);
  }

  /** The row of an excluded node names what it was excluded for. */
  lemma ExclusionNamed(rankings: seq<Ranking>, looks: seq<RewardLook>, i: nat)
    requires i < |rankings| == |looks|
    ensures var row := EligibilityRows(rankings, Claims(rankings, looks))[i];
      && row.excludedGroup == (if row.exclusion == SameOperatorGroup then row.operatorGroupId else "")
      && (if row.exclusion == SameRegistrableDomain
          then looks[i].domain.Some? && row.excludedDomain == Lower(Trim(looks[i].domain.value.what.registrableDomain))
          else row.excludedDomain == "")
      && (if row.exclusion == SameSharedControlPlane
          then looks[i].plane.Some? && looks[i].plane.value.what.review == Accepted
            && row.excludedPlane == Trim(looks[i].plane.value.what.controlPlaneId)
            && row.excludedClassification == looks[i].plane.value.what.classification
          else row.excludedPlane == "" && row.excludedClassification == "")
  {
    hide Trim, Lower;
  }

  /** All of that: why the row says what it says, in terms of the evidence of its node and of those above. */
  ghost predicate RowInEvidence(rankings: seq<Ranking>, looks: seq<RewardLook>, row: Eligibility, i: nat)
    requires i < |rankings| == |looks|
  {
    && row.nodeId == rankings[i].nodeId && row.rank == rankings[i].rank
    && row.exclusion == (
         if GroupAbove(rankings, looks, i) then SameOperatorGroup
         else if DomainAbove(looks, i) then SameRegistrableDomain
         else if PlaneAbove(looks, i) then SameSharedControlPlane
         else NoReason)
    && (row.eligible <==> row.exclusion == NoReason)
    && GroupNamed(rankings[i], looks[i], row.operatorGroupId)
    && row.excludedGroup == (if row.exclusion == SameOperatorGroup then row.operatorGroupId else "")
    && (row.exclusion == SameRegistrableDomain ==>
          looks[i].domain.Some? && row.excludedDomain == Lower(Trim(looks[i].domain.value.what.registrableDomain)))
    && (row.exclusion == SameSharedControlPlane ==>
          looks[i].plane.Some? && row.excludedPlane == Trim(looks[i].plane.value.what.controlPlaneId))
  }

  lemma RowSaysWhy(rankings: seq<Ranking>, looks: seq<RewardLook>, i: nat)
    requires i < |rankings| == |looks|
    ensures RowInEvidence(rankings, looks, EligibilityRows(rankings, Claims(rankings, looks))[i], i)
  {
    hide GroupAbove, DomainAbove, PlaneAbove, GroupNamed, EligibilityRows, Claims;
    ExclusionInEvidence(rankings, looks, i);
    ExclusionNamed(rankings, looks, i);
  }

  /** `b` is `a`, perhaps without a control plane or a group that was not accepted. */
  predicate DropsUnaccepted(a: RewardLook, b: RewardLook) {
    && b.domain == a.domain
    && (b.plane == a.plane || (a.plane.Some? && a.plane.value.what.review != Accepted && b.plane.None?))
    && (b.group == a.group || (a.group.Some? && a.group.value.what.review != Accepted && b.group.None?))
  }

  /** Pending and rejected evidence counts for nothing: without any of it every row is the same. */
  lemma UnacceptedCountsForNothing(rankings: seq<Ranking>, looks: seq<RewardLook>, fewer: seq<RewardLook>)
    requires |looks| == |fewer| == |rankings|
    requires forall i :: 0 <= i < |looks| ==> DropsUnaccepted(looks[i], fewer[i])
    ensures EligibilityRows(rankings, Claims(rankings, looks)) == EligibilityRows(rankings, Claims(rankings, fewer))
  {
    hide Trim, Lower;
    var (a, b) := (Claims(rankings, looks), Claims(rankings, fewer));
    forall i | 0 <= i < |rankings|
      ensures b[i] == a[i].(classification := b[i].classification)
      ensures a[i].plane.Some? ==> a[i] == b[i]
    {
      assert DropsUnaccepted(looks[i], fewer[i]);
    }
    forall i | 0 <= i < |rankings|
      ensures RowOf(rankings[i], a[i], Exclusion(a, i)) == RowOf(rankings[i], b[i], Exclusion(b, i))
    {
      SameExclusion(a, b, i);
    }
  }

  lemma SameExclusion(a: seq<Claim>, b: seq<Claim>, i: nat)
    requires i < |a| == |b| && forall j :: 0 <= j < |a| ==> b[j] == a[j].(classification := b[j].classification)
    ensures Exclusion(a, i) == Exclusion(b, i)
    ensures Exclusion(a, i) == SameSharedControlPlane ==> a[i].plane.Some?
  {
    assert forall j :: 0 <= j < i ==> (SameGroup(a[j], a[i]) <==> SameGroup(b[j], b[i]));
    assert forall j :: 0 <= j < i ==> (SameDomain(a[j], a[i]) <==> SameDomain(b[j], b[i]));
    assert forall j :: 0 <= j < i ==> (SamePlane(a[j], a[i]) <==> SamePlane(b[j], b[i]));
  }

  // ---- The documented backfill rule ----

  /** The rule of the design: a node gives way only to higher-ranked nodes that keep their slot. */
  predicate Kept(claims: seq<Claim>, i: nat)
    requires i < |claims|
    decreases i
  {
    forall j :: 0 <= j < i && Kept(claims, j) ==> !Overlap(claims[j], claims[i])
  }

  /** The portal rewards a subset of the nodes the design would. */
  lemma EligibleIsKept(claims: seq<Claim>, i: nat)
    requires i < |claims| && Eligible(claims, i)
    ensures Kept(claims, i)
  {
    EligibleIffNoHigherOverlap(claims, i);
  }

  ghost predicate ExcludedByRewarded(claims: seq<Claim>, i: nat)
    requires i < |claims|
  {
    exists j :: 0 <= j < i && Eligible(claims, j) && Overlap(claims[j], claims[i])
  }

  lemma BackfillHonouredIffRewarded(claims: seq<Claim>)
    ensures (forall i :: 0 <= i < |claims| ==> (Eligible(claims, i) <==> Kept(claims, i)))
       <==> (forall i :: 0 <= i < |claims| && !Eligible(claims, i) ==> ExcludedByRewarded(claims, i))
  {
    if forall i :: 0 <= i < |claims| && !Eligible(claims, i) ==> ExcludedByRewarded(claims, i) {
      forall i | 0 <= i < |claims|
        ensures Eligible(claims, i) <==> Kept(claims, i)
      {
        if Eligible(claims, i) {
          EligibleIsKept(claims, i);
        } else {
          var j :| 0 <= j < i && Eligible(claims, j) && Overlap(claims[j], claims[i]);
          EligibleIsKept(claims, j);
        }
      }
    }
  }

  /** Some higher-ranked node overlaps. */
  ghost predicate Overlapped(claims: seq<Claim>, i: nat)
    requires i < |claims|
  {
    exists j :: 0 <= j < i && Overlap(claims[j], claims[i])
  }

  /** Some higher-ranked node overlaps that itself is overlapped by none. */
  ghost predicate OverlappedByFree(claims: seq<Claim>, i: nat)
    requires i < |claims|
  {
    exists k :: 0 <= k < i && Overlap(claims[k], claims[i]) && !Overlapped(claims, k)
  }

  /** The portal follows the design's backfill rule exactly on the rankings where every node that a
      higher one overlaps is overlapped by a higher one that none overlaps. */
  lemma BackfillHonouredIff(claims: seq<Claim>)
    ensures (forall i :: 0 <= i < |claims| ==> (Eligible(claims, i) <==> Kept(claims, i)))
       <==> (forall i :: 0 <= i < |claims| && Overlapped(claims, i) ==> OverlappedByFree(claims, i))
  {
    hide Exclusion, Kept, Overlap;
    BackfillHonouredIffRewarded(claims);
    forall i | 0 <= i < |claims|
      ensures Eligible(claims, i) <==> !Overlapped(claims, i)
    {
      EligibleIffNoHigherOverlap(claims, i);
    }
    forall i | 0 <= i < |claims|
      ensures ExcludedByRewarded(claims, i) <==> OverlappedByFree(claims, i)
    {
      hide Overlapped;
    }
  }

  /** A ranking on which the slot of an excluded node is not backfilled: the third node is
      independent of the only rewarded one, and still gets nothing. */
  lemma BackfillGap()
    ensures var claims := [
        Claim("g1", None, None, ""),
        Claim("g1", Some("example.org"), None, ""),
        Claim("g3", Some("example.org"), None, "")];
      && Eligible(claims, 0) && !Eligible(claims, 1) && !Eligible(claims, 2)
      && Kept(claims, 2) && Exclusion(claims, 2) == SameRegistrableDomain
  {
    var claims := [
      Claim("g1", None, None, ""),
      Claim("g1", Some("example.org"), None, ""),
      Claim("g3", Some("example.org"), None, "")];
    assert "g1"[1] != "g3"[1];
    assert SameGroup(claims[0], claims[1]) && SameDomain(claims[1], claims[2]);
    assert Kept(claims, 0);
    assert !Kept(claims, 1);
  }
}
