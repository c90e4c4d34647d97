/** Exactly when an accepted heartbeat leaves the stored heartbeat gates as they would be graded now: the
    handler re-grades the heartbeat's UTC date only, but the healthy window of a date reaches back into
    the date before. */
module BeatGates {
  import opened Records
  import opened Counting
  import opened Tables
  import opened ProbeSummary
  import opened Qualification
  import opened PortalState
  import opened Pipeline
  import opened Portal
  import opened Views
  import opened Gradings

  /** The heartbeat gate that a grading at this time would give the node on the date. */
  function GateNow(s: State, k: NodeDate, now: int): bool {
    CountBeats(s.heartbeats, k.0, Anchor(k.1, now), HEALTHY_WINDOW) >= 2
  }

  ghost predicate BeatGatesCurrent(s: State, now: int) {
    forall k :: k in s.derived.decisions ==> s.derived.decisions[k].heartbeatPassed == GateNow(s, k, now)
  }

  /** One more heartbeat changes the gate at an anchor exactly if it is the second in the window. */
  lemma SecondBeatOpens(beats: seq<Heartbeat>, b: Heartbeat, n: string, anchor: int)
    ensures CountBeats(beats + [b], n, anchor, HEALTHY_WINDOW) >= 2 <==>
      CountBeats(beats, n, anchor, HEALTHY_WINDOW) >= 2
      || (CountBeats(beats, n, anchor, HEALTHY_WINDOW) == 1 && b.nodeId == n && Within(b.at, anchor, HEALTHY_WINDOW))
  {
    CountAppend(beats, [b], RecentBeat(n, anchor, HEALTHY_WINDOW));
  }

  /** What a caller can check before sending a heartbeat: it would be the node's second one of the last
      fifteen minutes, and the date is later than the heartbeat's own. */
  predicate OpensLater(s: State, r: HeartbeatRequest, k: NodeDate, now: int)
    requires r.at.At?
  {
    && k.0 == r.nodeId && k.1 > UtcDate(r.at.t)
    && Within(r.at.t, now, HEALTHY_WINDOW) && CountBeats(s.heartbeats, k.0, now, HEALTHY_WINDOW) == 1
  }

  /** A heartbeat is within the healthy window of an anchor of another date only if that date is later and
      the anchor is still now. */
  lemma WithinOtherDate(at: Stamp, date: int, now: int)
    requires date != UtcDate(at)
    ensures Within(at, Anchor(date, now), HEALTHY_WINDOW) <==> date > UtcDate(at) && Within(at, now, HEALTHY_WINDOW)
    ensures date > UtcDate(at) && Within(at, now, HEALTHY_WINDOW) ==> Anchor(date, now) == now
  {
    hide Instant;
    var (day, end) := (Instant(at) / DAY, date * DAY + DAY - 1);
    assert day * DAY <= Instant(at) < day * DAY + DAY;
    if date < day {
      assert end < day * DAY;
    } else {
      assert end >= (day + 1) * DAY + DAY - 1;
    }
  }

  lemma GateAfterBeat(c: Config, s: State, r: HeartbeatRequest, k: NodeDate, now: nat)
    requires HeartbeatError(c, s, r, now).None? && k != (r.nodeId, UtcDate(r.at.t))
    ensures GateNow(WithHeartbeat(c, s, r), k, now) <==> GateNow(s, k, now) || OpensLater(s, r, k, now)
  {
    hide Anchor, Within, CountBeats, UtcDate;
    SecondBeatOpens(s.heartbeats, Heartbeat(r.nodeId, r.at.t, r.sequence), k.0, Anchor(k.1, now));
    if k.1 != UtcDate(r.at.t) {
      WithinOtherDate(r.at.t, k.1, now);
    }
  }

  /** The decisions after the rebuild of a heartbeat. */
  lemma BeatRegrades(c: Config, s: State, r: HeartbeatRequest, env: Env)
    requires HeartbeatError(c, s, r, env.now).None?
    ensures var t, key := Settled(c, s, Beat(r), env), (r.nodeId, UtcDate(r.at.t));
      && t.heartbeats == WithHeartbeat(c, s, r).heartbeats
      && t.derived.decisions.Keys == s.derived.decisions.Keys + {key}
      && (forall k :: k in s.derived.decisions && k != key ==> t.derived.decisions[k] == s.derived.decisions[k])
      && t.derived.decisions[key].heartbeatPassed == GateNow(t, key, env.now)
  {
    hide SummaryOf, RankingStep, CountBeats, Failures, BaseOf, Anchor, UtcDate;
    var noted, date := WithHeartbeat(c, s, r), UtcDate(r.at.t);
    var summary := SummaryOf(c.policy, noted.probes, r.nodeId, date);
    GatesOfReadings(summary, ReadingsOf(noted, r.nodeId, date, env.now, env.looks));
    RankingStepKeepsRest(c.nominalPool, GradeStep(c, noted, r.nodeId, date, env.now, env.looks), RegistrationsOf(noted.nodes), date, env.looks.ranks);
  }

  /** Each stored gate after an accepted heartbeat: that of its own date is as graded now; any other is so
      exactly if it was before or the heartbeat opens it, not both. */
  lemma BeatKeepsGateIff(c: Config, s: State, r: HeartbeatRequest, env: Env, k: NodeDate)
    requires HeartbeatError(c, s, r, env.now).None? && k in s.derived.decisions
    ensures var t := Settled(c, s, Beat(r), env);
      k in t.derived.decisions &&
      (t.derived.decisions[k].heartbeatPassed == GateNow(t, k, env.now) <==>
        k == (r.nodeId, UtcDate(r.at.t))
        || (s.derived.decisions[k].heartbeatPassed == GateNow(s, k, env.now) <==> !OpensLater(s, r, k, env.now)))
  {
    hide Settled, UtcDate, CountBeats, Within;
    BeatRegrades(c, s, r, env);
    if k != (r.nodeId, UtcDate(r.at.t)) {
      GateAfterBeat(c, s, r, k, env.now);
      SecondOnly(s, r, k, env.now);
    }
  }

  /** A gate that the heartbeat opens was closed, and is not of the heartbeat's own date. */
  lemma SecondOnly(s: State, r: HeartbeatRequest, k: NodeDate, now: int)
    requires r.at.At?
    ensures OpensLater(s, r, k, now) ==> !GateNow(s, k, now) && k != (r.nodeId, UtcDate(r.at.t))
  {
    if k.1 > UtcDate(r.at.t) {
      WithinOtherDate(r.at.t, k.1, now);
    }
  }

  /** An accepted heartbeat keeps all stored heartbeat gates as they would be graded now if and only if it
      opens none of a later date. */
  lemma BeatKeepsGatesIff(c: Config, s: State, r: HeartbeatRequest, env: Env)
    requires HeartbeatError(c, s, r, env.now).None? && BeatGatesCurrent(s, env.now)
    ensures BeatGatesCurrent(Settled(c, s, Beat(r), env), env.now)
      <==> forall k :: k in s.derived.decisions ==> !OpensLater(s, r, k, env.now)
  {
    hide Settled, UtcDate, GateNow, OpensLater;
    var t := Settled(c, s, Beat(r), env);
    BeatRegrades(c, s, r, env);
    forall k | k in s.derived.decisions
      ensures t.derived.decisions[k].heartbeatPassed == GateNow(t, k, env.now) <==> !OpensLater(s, r, k, env.now)
    {
      BeatKeepsGateIff(c, s, r, env, k);
      SecondOnly(s, r, k, env.now);
    }
  }
}
