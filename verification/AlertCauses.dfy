/** Why notifications are sent: what each of them tells was the case, and what is the case is told. */
module AlertCauses {
  import opened Records
  import opened Texts
  import opened Tables
  import opened ProbeSummary
  import opened PortalState
  import opened Snapshots
  import opened Portal
  import opened Stepping
  import opened Views
  import opened Reachable
  import opened PortalRuns
  import opened Accounts
  import opened AlertRuns
  import opened HeartbeatRuns
  import opened Provenance

  // ---- What is the case ----

  /** How long ago, in nanoseconds, the node was last heard of. */
  function Silence(node: Node, now: int): int
    requires node.lastHeartbeat.Some?
  {
    now - Instant(node.lastHeartbeat.value) * 1_000_000_000
  }

  /** An enrolled node that has been heard of, but not for this long. */
  predicate SilentFor(s: State, nodeId: string, now: int, atLeast: int) {
    && nodeId in s.nodes && s.nodes[nodeId].publicKey != "" && s.nodes[nodeId].lastHeartbeat.Some?
    && Silence(s.nodes[nodeId], now) >= atLeast
  }

  predicate SilenceTold(c: Config, s: State, x: Sent, now: int) {
    && x.at == now
    && (if x.code == "heartbeat_failed" then SilentFor(s, x.nodeId, now, c.failedAfter)
        else x.code == "heartbeat_stale" && SilentFor(s, x.nodeId, now, c.staleAfter) && !SilentFor(s, x.nodeId, now, c.failedAfter))
  }

  /** Less than 99 % of the probes found the node up; less than 95 % of the lags were within their limit. */
  predicate SummaryTold(m: Summary, x: Sent, now: int) {
    && x.at == now && x.nodeId == m.nodeId
    && (if x.code == "node_outage" then m.valid > 0 && 100 * m.up < 99 * m.valid
        else x.code == "finalized_lag" && m.up > 0 && 100 * m.finalizedWithin < 95 * m.up)
  }

  predicate FlagTold(r: TelemetryRequest, x: Sent, now: int) {
    && x.at == now && x.nodeId == r.nodeId && r.flags.Some? && x.code in r.flags.value
    && (x.code == "portal_unreachable" || x.code == "local_check_execution_failed"
        || x.code == "voting_key_expiry_risk" || x.code == "certificate_expiry_risk")
  }

  /** What a notification tells is the case in the store in which the event was handled. */
  ghost predicate Told(c: Config, s: State, e: Event, x: Sent) {
    && Genuine(c, s, e.q, e.env.now) && RequestError(c, s, e.q, e.env.now).None?
    && match e.q
       case Scan => SilenceTold(c, s, x, e.env.now)
       case SendTelemetry(r) => FlagTold(r, x, e.env.now)
       case _ =>
         && RebuildOf(e.q).Artifacts?
         && SummaryTold(SummaryOf(c.policy, Noted(c, s, e.q, e.env.now).probes, RebuildOf(e.q).nodeId, RebuildOf(e.q).date), x, e.env.now)
  }

  // ---- Only what is the case is told ----

  ghost predicate Adds(before: seq<Sent>, after: seq<Sent>, why: Sent -> bool) {
    && |before| <= |after| && after[..|before|] == before
    && forall k :: |before| <= k < |after| ==> why(after[k])
  }

  lemma AddsTwice(a: seq<Sent>, b: seq<Sent>, d: seq<Sent>, why: Sent -> bool)
    requires Adds(a, b, why) && Adds(b, d, why)
    ensures Adds(a, d, why)
  {
    assert d[..|a|] == d[..|b|][..|a|];
    forall k | |a| <= k < |d|
      ensures why(d[k])
    {
      assert k < |b| ==> d[k] == d[..|b|][k];
    }
  }

  lemma NotifyAdds(c: Config, sys: Sys, nodeId: string, code: string, at: Stamp, now: int, io: Io, why: Sent -> bool)
    requires why(Sent(nodeId, code, now))
    ensures Adds(sys.sent, Notify(c, sys, nodeId, code, at, now, io).0.sent, why)
  {
    hide SnapshotOf, RecipientOf, CoolingDown;
  }

  lemma {:induction false} ScanAdds(c: Config, sys: Sys, nodes: seq<Node>, n: nat, env: Env, why: Sent -> bool)
    requires n <= |nodes|
    requires forall i :: 0 <= i < |nodes| && HeartbeatAlert(c, nodes[i], env.now).Some? ==>
      why(Sent(nodes[i].nodeId, HeartbeatAlert(c, nodes[i], env.now).value, env.now))
    ensures Adds(sys.sent, ScanStep(c, sys, nodes, n, env).sent, why)
  {
    hide Notify, HeartbeatAlert;
    if n > 0 {
      ScanAdds(c, sys, nodes, n - 1, env, why);
      var before := ScanStep(c, sys, nodes, n - 1, env);
      if HeartbeatAlert(c, nodes[n - 1], env.now).Some? {
        NotifyAdds(c, before, nodes[n - 1].nodeId, HeartbeatAlert(c, nodes[n - 1], env.now).value, Printed(env.now), env.now, env.io(n - 1), why);
        AddsTwice(sys.sent, before.sent, ScanStep(c, sys, nodes, n, env).sent, why);
      }
    }
  }

  lemma {:induction false} FlagsAdd(c: Config, sys: Sys, nodeId: string, at: Stamp, flags: seq<string>, n: nat, env: Env, why: Sent -> bool)
    requires n <= |flags|
    requires forall i :: 0 <= i < |flags| && flags[i] in WARNING_CODES ==> why(Sent(nodeId, flags[i], env.now))
    ensures Adds(sys.sent, FlagsStep(c, sys, nodeId, at, flags, n, env).0.sent, why)
  {
    hide Notify;
    if n > 0 {
      FlagsAdd(c, sys, nodeId, at, flags, n - 1, env, why);
      var (before, error) := FlagsStep(c, sys, nodeId, at, flags, n - 1, env);
      if error.None? && flags[n - 1] in WARNING_CODES {
        var noted := before.(mem := WithTelemetry(before.mem, Telemetry(nodeId, at, flags[n - 1])));
        NotifyAdds(c, noted, nodeId, flags[n - 1], at, env.now, env.io(n - 1), why);
        AddsTwice(sys.sent, before.sent, FlagsStep(c, sys, nodeId, at, flags, n, env).0.sent, why);
      }
    }
  }

  lemma SummaryAdds(c: Config, sys: Sys, m: Summary, env: Env, why: Sent -> bool)
    requires m.valid > 0 && !m.availabilityPassed ==> why(Sent(m.nodeId, NODE_OUTAGE, env.now))
    requires m.finalizedMeasurable > 0 && !m.finalizedPassed ==> why(Sent(m.nodeId, FINALIZED_LAG, env.now))
    ensures Adds(sys.sent, SummaryAlerts(c, sys, m, env).sent, why)
  {
    hide Notify;
    var first := if m.valid > 0 && !m.availabilityPassed
      then Notify(c, sys, m.nodeId, NODE_OUTAGE, Printed(env.now), env.now, env.io(0)).0 else sys;
    if m.valid > 0 && !m.availabilityPassed {
      NotifyAdds(c, sys, m.nodeId, NODE_OUTAGE, Printed(env.now), env.now, env.io(0), why);
    }
    if m.finalizedMeasurable > 0 && !m.finalizedPassed {
      NotifyAdds(c, first, m.nodeId, FINALIZED_LAG, Printed(env.now), env.now, env.io(1), why);
    }
    AddsTwice(sys.sent, first.sent, SummaryAlerts(c, sys, m, env).sent, why);
  }

  lemma CodesDiffer()
    ensures "heartbeat_failed" != "heartbeat_stale" && "node_outage" != "finalized_lag"
  {
    assert "heartbeat_failed"[10] != "heartbeat_stale"[10] && "node_outage"[0] != "finalized_lag"[0];
  }

  /** Which of the two heartbeat codes is raised at which silence. */
  lemma HeartbeatCodes(c: Config, s: State, node: Node, now: nat)
    requires node.nodeId in s.nodes && s.nodes[node.nodeId] == node
    ensures var alert := HeartbeatAlert(c, node, now);
      && (alert.Some? ==> SilenceTold(c, s, Sent(node.nodeId, alert.value, now), now))
      && (SilentFor(s, node.nodeId, now, c.failedAfter) ==> alert == Some("heartbeat_failed"))
      && (SilentFor(s, node.nodeId, now, c.staleAfter) && !SilentFor(s, node.nodeId, now, c.failedAfter) ==> alert == Some("heartbeat_stale"))
      && (!SilentFor(s, node.nodeId, now, c.staleAfter) && !SilentFor(s, node.nodeId, now, c.failedAfter) ==> alert.None?)
  {
    CodesDiffer();
  }

  lemma SummaryCodes(policy: Policy, probes: Probes, nodeId: string, date: int, now: int)
    requires AllAcceptable(probes)
    ensures var m := SummaryOf(policy, probes, nodeId, date);
      && (m.valid > 0 && !m.availabilityPassed <==> SummaryTold(m, Sent(nodeId, "node_outage", now), now))
      && (m.finalizedMeasurable > 0 && !m.finalizedPassed <==> SummaryTold(m, Sent(nodeId, "finalized_lag", now), now))
      && m.nodeId == nodeId
  {
    hide SummaryOf;
    CodesDiffer();
    SummaryCountsOrdered(policy, probes, nodeId, date);
    RatiosShown(policy, probes, nodeId, date);
  }

  ghost function TellsOf(c: Config, s: State, e: Event): Sent -> bool {
    (x: Sent) => Told(c, s, e, x)
  }

  lemma ScanTells(c: Config, seed: map<string, Node>, sys: Sys, e: Event)
    requires e.q.Scan? && NodesOk(seed, sys.mem.nodes)
    ensures Adds(sys.sent, AlertScan(c, sys, e.env).sent, TellsOf(c, sys.mem, e))
  {
    hide ScanStep, HeartbeatAlert, Sorting;
    var nodes := Sorting(sys.mem.nodes, NodeOrder);
    forall i | 0 <= i < |nodes| && HeartbeatAlert(c, nodes[i], e.env.now).Some?
      ensures Told(c, sys.mem, e, Sent(nodes[i].nodeId, HeartbeatAlert(c, nodes[i], e.env.now).value, e.env.now))
    {
      ListedNode(seed, sys.mem.nodes, i);
      HeartbeatCodes(c, sys.mem, nodes[i], e.env.now);
    }
    ScanAdds(c, sys, nodes, |nodes|, e.env, TellsOf(c, sys.mem, e));
  }

  lemma ListedNode(seed: map<string, Node>, nodes: map<string, Node>, i: nat)
    requires NodesOk(seed, nodes) && i < |Sorting(nodes, NodeOrder)|
    ensures var node := Sorting(nodes, NodeOrder)[i]; node.nodeId in nodes && nodes[node.nodeId] == node
  {
    assert Sorting(nodes, NodeOrder)[i] in nodes.Values;
  }

  lemma FlagsTell(c: Config, sys: Sys, from: State, e: Event)
    requires e.q.SendTelemetry? && Genuine(c, from, e.q, e.env.now) && RequestError(c, from, e.q, e.env.now).None?
    requires e.q.telemetry.at.At? && e.q.telemetry.flags.Some?
    ensures var r := e.q.telemetry;
      Adds(sys.sent, FlagsStep(c, sys, r.nodeId, r.at.t, r.flags.value, |r.flags.value|, e.env).0.sent, TellsOf(c, from, e))
  {
    hide FlagsStep, Genuine, RequestError;
    var r := e.q.telemetry;
    FlagsAdd(c, sys, r.nodeId, r.at.t, r.flags.value, |r.flags.value|, e.env, TellsOf(c, from, e));
  }

  lemma SummariesTell(c: Config, sys: Sys, from: State, e: Event)
    requires Genuine(c, from, e.q, e.env.now) && RequestError(c, from, e.q, e.env.now).None?
    requires RebuildOf(e.q).Artifacts? && AllAcceptable(sys.mem.probes) && sys.mem.probes == Noted(c, from, e.q, e.env.now).probes
    ensures var b := RebuildOf(e.q);
      Adds(sys.sent, SummaryAlerts(c, sys, SummaryOf(c.policy, sys.mem.probes, b.nodeId, b.date), e.env).sent, TellsOf(c, from, e))
  {
    hide SummaryAlerts, Genuine, RequestError, Noted, SummaryOf, SummaryTold;
    var b := RebuildOf(e.q);
    NotScanned(e.q);
    SummaryCodes(c.policy, sys.mem.probes, b.nodeId, b.date, e.env.now);
    SummaryAdds(c, sys, SummaryOf(c.policy, sys.mem.probes, b.nodeId, b.date), e.env, TellsOf(c, from, e));
  }

  lemma NotScanned(q: Request)
    ensures RebuildOf(q).Artifacts? ==> !q.Scan? && !q.SendTelemetry?
    ensures q.Scan? || q.SendTelemetry? ==> RebuildOf(q) == Nothing
  {
  }

  /** Every notification that a step sends tells what is the case. */
  lemma StepTells(c: Config, seed: map<string, Node>, sys: Sys, e: Event)
    requires SeedOk(seed) && SysOk(c, seed, sys) && Possible(c, sys, e)
    ensures Adds(sys.sent, Step(c, seed, sys, e.q, e.env).sent, TellsOf(c, sys.mem, e))
  {
    hide SysOk, Settled, RequestError, Noted, LooksFound, NodesOk, Told, Alerts, RestartStep, Genuine, Persist, Adds, RebuildOf;
    AcceptedIffGenuine(c, sys.mem, e.q, e.env.now);
    NothingAdded(sys.sent, TellsOf(c, sys.mem, e));
    RestartSends(seed, sys);
    if RequestError(c, sys.mem, e.q, e.env.now).None? && !e.q.Restart? {
      SettledTells(c, seed, sys, e);
      PersistSends(Alerts(c, sys.(mem := Settled(c, sys.mem, e.q, e.env)), e.q, e.env).0, e.env.saves);
    }
  }

  lemma NothingAdded(sent: seq<Sent>, why: Sent -> bool)
    ensures Adds(sent, sent, why)
  {
  }

  lemma PersistSends(sys: Sys, saves: bool)
    ensures Persist(sys, saves).sent == sys.sent
  {
    hide SnapshotOf;
  }

  lemma SettledTells(c: Config, seed: map<string, Node>, sys: Sys, e: Event)
    requires SeedOk(seed) && SysOk(c, seed, sys) && Possible(c, sys, e)
    requires RequestError(c, sys.mem, e.q, e.env.now).None? && !e.q.Restart? && Genuine(c, sys.mem, e.q, e.env.now)
    ensures Adds(sys.sent, Alerts(c, sys.(mem := Settled(c, sys.mem, e.q, e.env)), e.q, e.env).0.sent, TellsOf(c, sys.mem, e))
  {
    hide SysOk, Settled, RequestError, Noted, LooksFound, NodesOk, Told, Genuine, Adds, RebuildOf, ScanStep, FlagsStep, SummaryAlerts, SummaryOf, AllAcceptable, Possible;
    var settled := sys.(mem := Settled(c, sys.mem, e.q, e.env));
    SettledContinues(c, seed, sys, e);
    SettledAcceptable(c, seed, settled);
    NotScanned(e.q);
    NothingAdded(sys.sent, TellsOf(c, sys.mem, e));
    if e.q.Scan? {
      ScanSettles(c, sys.mem, e);
      ScanTells(c, seed, sys, e);
      assert settled == sys;
    } else if e.q.SendTelemetry? {
      TelemetryReads(c, sys.mem, e);
      FlagsTell(c, settled, sys.mem, e);
    } else if RebuildOf(e.q).Artifacts? {
      SummariesTell(c, settled, sys.mem, e);
    }
  }

  lemma ScanSettles(c: Config, s: State, e: Event)
    requires e.q.Scan? && RequestError(c, s, e.q, e.env.now).None?
    ensures Settled(c, s, e.q, e.env) == s
  {
  }

  lemma TelemetryReads(c: Config, s: State, e: Event)
    requires e.q.SendTelemetry? && Genuine(c, s, e.q, e.env.now)
    ensures e.q.telemetry.at.At? && e.q.telemetry.flags.Some?
  {
  }

  lemma SettledAcceptable(c: Config, seed: map<string, Node>, sys: Sys)
    requires SysOk(c, seed, sys)
    ensures AllAcceptable(sys.mem.probes) && NodesOk(seed, sys.mem.nodes)
  {
    hide SavedOk, WellFormed, AllAcceptable, RankingStands, RewardsFollow, SummaryFresh, RankingFresh, RewardsFresh, GradesOk, NodesOk;
    NodesStayOk(c, seed, sys.mem);
  }

  /** In every run, each notification that was ever sent told what was the case when it was sent: a failed or
      stale heartbeat the silence of an enrolled node, an outage or a lag the counts of the summary, a
      warning a flag of the agent's own signed telemetry. */
  lemma {:induction false} EverythingToldWasSo(c: Config, seed: map<string, Node>, run: seq<Event>, k: nat)
    requires SeedOk(seed) && Lawful(c, seed, run) && k < |After(c, seed, run).sent|
    ensures exists i: nat :: i < |run| && Told(c, After(c, seed, run[..i]).mem, run[i], After(c, seed, run).sent[k])
  {
    hide Step, Possible, SeedOk, Told;
    if run != [] {
      var n := |run| - 1;
      var front, sent := run[..n], After(c, seed, run).sent;
      RunOk(c, seed, front);
      StepTells(c, seed, After(c, seed, front), run[n]);
      if k < |After(c, seed, front).sent| {
        EverythingToldWasSo(c, seed, front, k);
        var i: nat :| i < |front| && Told(c, After(c, seed, front[..i]).mem, front[i], After(c, seed, front).sent[k]);
        assert front[..i] == run[..i];
        assert sent[k] == After(c, seed, front).sent[k];
        assert Told(c, After(c, seed, run[..i]).mem, run[i], sent[k]);
      } else {
        assert TellsOf(c, After(c, seed, front).mem, run[n])(sent[k]);
      }
    }
  }

  // ---- What is the case is told ----

  /** The cooldown of an alert, in seconds: a quarter of an hour for the critical ones, a day for the others. */
  function CooldownSeconds(code: string): int {
    if code == "heartbeat_failed" || code == "node_outage" || code == "finalized_lag" then 900 else 86_400
  }

  lemma CooldownInSeconds(code: string)
    ensures Cooldown(SeverityOf(code)) == CooldownSeconds(code)
    ensures SeverityOf(code) == Critical <==> CooldownSeconds(code) == 900
  {
  }

  predicate SentLately(s: State, nodeId: string, code: string, severity: Severity, now: int) {
    (nodeId, code, severity) in s.alertStates
    && now < (s.alertStates[(nodeId, code, severity)].lastSentAt + CooldownSeconds(code)) * 1_000_000_000
  }

  /** The alert was sent within its cooldown, or sending it failed just now. */
  ghost predicate Alerted(s: State, nodeId: string, code: string, now: int) {
    || (exists severity :: SentLately(s, nodeId, code, severity, now))
    || (exists d :: d in s.deliveries && d.nodeId == nodeId && d.code == code && !d.sent && d.sentAt == now / 1_000_000_000)
  }

  lemma NotifyAlerts(c: Config, sys: Sys, nodeId: string, code: string, at: Stamp, now: int, io: Io)
    ensures Alerted(Notify(c, sys, nodeId, code, at, now, io).0.mem, nodeId, code, now)
  {
    hide SnapshotOf, RecipientOf;
    CooldownInSeconds(code);
    var recipient := RecipientOf(c, sys.mem, nodeId);
    var t := Notify(c, sys, nodeId, code, at, now, io).0;
    if CoolingDown(sys.mem, nodeId, code, now) {
      assert SentLately(t.mem, nodeId, code, SeverityOf(code), now);
    } else if recipient == "" || !io.sends {
      var d := DeliveryOf(nodeId, code, recipient, at, now, false);
      assert t.mem.deliveries[|t.mem.deliveries| - 1] == d;
      assert d in t.mem.deliveries;
    } else {
      assert SentLately(t.mem, nodeId, code, SeverityOf(code), now);
    }
  }

  lemma NotifyKeepsAlerted(c: Config, sys: Sys, nodeId: string, code: string, at: Stamp, now: int, io: Io, n: string, other: string)
    requires Alerted(sys.mem, n, other, now)
    ensures Alerted(Notify(c, sys, nodeId, code, at, now, io).0.mem, n, other, now)
  {
    hide SnapshotOf, RecipientOf, CoolingDown;
    var t := Notify(c, sys, nodeId, code, at, now, io).0;
    if severity :| SentLately(sys.mem, n, other, severity, now) {
      assert SentLately(t.mem, n, other, severity, now);
    } else {
      var d :| d in sys.mem.deliveries && d.nodeId == n && d.code == other && !d.sent && d.sentAt == now / 1_000_000_000;
      assert d in t.mem.deliveries;
    }
  }

  lemma {:induction false} ScanAlerts(c: Config, sys: Sys, nodes: seq<Node>, n: nat, env: Env, i: nat)
    requires i < n <= |nodes| && HeartbeatAlert(c, nodes[i], env.now).Some?
    ensures Alerted(ScanStep(c, sys, nodes, n, env).mem, nodes[i].nodeId, HeartbeatAlert(c, nodes[i], env.now).value, env.now)
  {
    hide Notify, HeartbeatAlert, Alerted;
    var before := ScanStep(c, sys, nodes, n - 1, env);
    var code := HeartbeatAlert(c, nodes[i], env.now).value;
    if i < n - 1 {
      ScanAlerts(c, sys, nodes, n - 1, env, i);
      if HeartbeatAlert(c, nodes[n - 1], env.now).Some? {
        NotifyKeepsAlerted(c, before, nodes[n - 1].nodeId, HeartbeatAlert(c, nodes[n - 1], env.now).value, Printed(env.now), env.now, env.io(n - 1),
          nodes[i].nodeId, code);
      }
    } else {
      NotifyAlerts(c, before, nodes[i].nodeId, code, Printed(env.now), env.now, env.io(n - 1));
    }
  }

  /** After a scan every enrolled node that has been silent too long is alerted about, with the code for how
      long: within the cooldown, unless sending failed just now. */
  lemma SilentNodesAlerted(c: Config, seed: map<string, Node>, run: seq<Event>, env: Env, nodeId: string)
    requires SeedOk(seed) && Lawful(c, seed, run) && c.staleAfter <= c.failedAfter
    requires SilentFor(After(c, seed, run).mem, nodeId, env.now, c.staleAfter)
    ensures var s, t := After(c, seed, run).mem, Step(c, seed, After(c, seed, run), Scan, env).mem;
      Alerted(t, nodeId, if SilentFor(s, nodeId, env.now, c.failedAfter) then "heartbeat_failed" else "heartbeat_stale", env.now)
  {
    hide After, Lawful, SysOk, ScanStep, HeartbeatAlert, Alerted, Sorting, SilentFor;
    RunOk(c, seed, run);
    var sys := After(c, seed, run);
    SettledAcceptable(c, seed, sys);
    var i := KnownNode(seed, sys.mem, nodeId, env.now, c.staleAfter);
    var nodes := Sorting(sys.mem.nodes, NodeOrder);
    HeartbeatCodes(c, sys.mem, nodes[i], env.now);
    ScanAlerts(c, sys, nodes, |nodes|, env, i);
  }

  lemma KnownNode(seed: map<string, Node>, s: State, nodeId: string, now: int, atLeast: int) returns (i: nat)
    requires NodesOk(seed, s.nodes) && SilentFor(s, nodeId, now, atLeast)
    ensures var nodes := Sorting(s.nodes, NodeOrder);
      i < |nodes| && nodes[i].nodeId == nodeId && nodeId in s.nodes && s.nodes[nodeId] == nodes[i]
  {
    hide Sorting;
    ListedRow(s.nodes, NodeOrder, s.nodes[nodeId]);
    i :| 0 <= i < |Sorting(s.nodes, NodeOrder)| && Sorting(s.nodes, NodeOrder)[i] == s.nodes[nodeId];
  }

  lemma SummaryAlerted(c: Config, sys: Sys, m: Summary, env: Env)
    ensures m.valid > 0 && !m.availabilityPassed ==> Alerted(SummaryAlerts(c, sys, m, env).mem, m.nodeId, "node_outage", env.now)
    ensures m.finalizedMeasurable > 0 && !m.finalizedPassed ==> Alerted(SummaryAlerts(c, sys, m, env).mem, m.nodeId, "finalized_lag", env.now)
  {
    hide Notify, Alerted;
    var at := Printed(env.now);
    NotifyAlerts(c, sys, m.nodeId, NODE_OUTAGE, at, env.now, env.io(0));
    var first := if m.valid > 0 && !m.availabilityPassed then Notify(c, sys, m.nodeId, NODE_OUTAGE, at, env.now, env.io(0)).0 else sys;
    NotifyAlerts(c, first, m.nodeId, FINALIZED_LAG, at, env.now, env.io(1));
    if m.valid > 0 && !m.availabilityPassed {
      NotifyKeepsAlerted(c, first, m.nodeId, FINALIZED_LAG, at, env.now, env.io(1), m.nodeId, NODE_OUTAGE);
    }
  }

  /** After an accepted event that re-grades a node and date, an outage or a lag in the counts of the summary
      is alerted about. */
  lemma PoorSummariesAlerted(c: Config, seed: map<string, Node>, run: seq<Event>, e: Event, code: string)
    requires SeedOk(seed) && Lawful(c, seed, run) && Possible(c, After(c, seed, run), e)
    requires RequestError(c, After(c, seed, run).mem, e.q, e.env.now).None? && RebuildOf(e.q).Artifacts?
    requires var m := SummaryOf(c.policy, Noted(c, After(c, seed, run).mem, e.q, e.env.now).probes, RebuildOf(e.q).nodeId, RebuildOf(e.q).date);
      SummaryTold(m, Sent(m.nodeId, code, e.env.now), e.env.now)
    ensures Alerted(Step(c, seed, After(c, seed, run), e.q, e.env).mem, RebuildOf(e.q).nodeId, code, e.env.now)
  {
    hide After, Lawful, SysOk, Noted, RebuildOf, RequestError, Settled, SummaryOf, SummaryAlerts, Alerted, Persist, AllAcceptable, Possible, NodesOk, SameAccounts;
    RunOk(c, seed, run);
    var sys, b := After(c, seed, run), RebuildOf(e.q);
    NotScanned(e.q);
    NotRestarted(e.q);
    SettledContinues(c, seed, sys, e);
    var settled := sys.(mem := Settled(c, sys.mem, e.q, e.env));
    SettledAcceptable(c, seed, settled);
    SameProbes(settled.mem, Noted(c, sys.mem, e.q, e.env.now));
    SummaryCodes(c.policy, settled.mem.probes, b.nodeId, b.date, e.env.now);
    SummaryAlerted(c, settled, SummaryOf(c.policy, settled.mem.probes, b.nodeId, b.date), e.env);
    PersistKeepsMem(Alerts(c, settled, e.q, e.env).0, e.env.saves);
  }

  lemma NotRestarted(q: Request)
    ensures RebuildOf(q).Artifacts? ==> !q.Restart?
  {
  }

  lemma SameProbes(s: State, t: State)
    requires SameAccounts(s, t)
    ensures s.probes == t.probes
  {
  }

  lemma PersistKeepsMem(sys: Sys, saves: bool)
    ensures Persist(sys, saves).mem == sys.mem
  {
    hide SnapshotOf;
  }

  // ---- How far apart ----

  /** In every run, with any clocks, lost saves and restarts anywhere, the recorded times of two sent deliveries
      of one alert are a quarter of an hour apart for the critical codes, a day for any other. */
  lemma DeliveriesApart(c: Config, seed: map<string, Node>, run: seq<Event>, i: nat, j: nat)
    requires SeedOk(seed) && Lawful(c, seed, run)
    requires var log := After(c, seed, run).mem.deliveries;
      i < j < |log| && log[i].sent && log[j].sent && log[i].nodeId == log[j].nodeId && log[i].code == log[j].code
    ensures var log := After(c, seed, run).mem.deliveries;
      log[j].sentAt - log[i].sentAt >=
        if log[i].code == "heartbeat_failed" || log[i].code == "node_outage" || log[i].code == "finalized_lag" then 900 else 86_400
  {
    hide After, Lawful, Remembered;
    ReachableAlertsSpaced(c, seed, run);
    CooldownInSeconds(After(c, seed, run).mem.deliveries[i].code);
    assert SameAlert(After(c, seed, run).mem.deliveries[i], After(c, seed, run).mem.deliveries[j]);
  }

  /** In runs that restart only from a current save, the same holds of the real times, in nanoseconds, up to
      the fraction of a second that the portal drops. */
  lemma SendsApartInSeconds(c: Config, seed: map<string, Node>, run: seq<Event>, i: nat, j: nat)
    requires SeedOk(seed) && Lawful(c, seed, run) && CleanRestarts(c, seed, run)
    requires var sent := After(c, seed, run).sent; i < j < |sent| && sent[i].nodeId == sent[j].nodeId && sent[i].code == sent[j].code
    ensures var sent := After(c, seed, run).sent;
      sent[j].at - sent[i].at >
        if sent[i].code == "heartbeat_failed" || sent[i].code == "node_outage" || sent[i].code == "finalized_lag"
        then 899 * 1_000_000_000 else 86_399 * 1_000_000_000
  {
    hide After, Lawful, CleanRestarts;
    SendsApart(c, seed, run, i, j);
    CooldownInSeconds(After(c, seed, run).sent[i].code);
  }

  // ---- What is recorded ----

  /** What one attempt to notify records and keeps: a delivery with its time, its recipient and whether it was
      sent; for one that was not, an operational event; for one that was, the time from which its cooldown
      runs.  It is saved at once if saving succeeds. */
  lemma AttemptRecorded(c: Config, sys: Sys, nodeId: string, code: string, at: Stamp, now: int, io: Io) returns (recipient: string)
    requires !SentLately(sys.mem, nodeId, code, if CooldownSeconds(code) == 900 then Critical else Warning, now)
    ensures var s, t := sys.mem, Notify(c, sys, nodeId, code, at, now, io).0;
      var severity, seconds := if CooldownSeconds(code) == 900 then Critical else Warning, now / 1_000_000_000;
      var after :=
        if recipient != "" && io.sends
        then s.(deliveries := s.deliveries + [Delivery(nodeId, code, severity, recipient, at, seconds, true)],
          alertStates := s.alertStates[(nodeId, code, severity) := AlertState(nodeId, code, severity, seconds, recipient)])
        else s.(deliveries := s.deliveries + [Delivery(nodeId, code, severity, recipient, at, seconds, false)],
          operational := s.operational + [Operational(nodeId, "notification_delivery_failed", seconds)]);
      && t.mem == after
      && t.sent == (if recipient != "" && io.sends then sys.sent + [Sent(nodeId, code, now)] else sys.sent)
      && t.disk == if io.saves then Some(SnapshotOf(t.mem)) else sys.disk
  {
    hide SnapshotOf, RecipientOf, SeverityOf, Cooldown, CooldownSeconds;
    CooldownInSeconds(code);
    CooldownEitherWay(code);
    recipient := RecipientOf(c, sys.mem, nodeId);
    assert !CoolingDown(sys.mem, nodeId, code, now);
  }

  lemma CooldownEitherWay(code: string)
    ensures CooldownSeconds(code) == 900 || CooldownSeconds(code) == 86_400
  {
  }

  /** A cooldown in force makes an attempt do nothing. */
  lemma CooldownHolds(c: Config, sys: Sys, nodeId: string, code: string, at: Stamp, now: int, io: Io)
    requires SentLately(sys.mem, nodeId, code, if CooldownSeconds(code) == 900 then Critical else Warning, now)
    ensures Notify(c, sys, nodeId, code, at, now, io) == (sys, true)
  {
    CooldownInSeconds(code);
  }

  function Recorded(nodeId: string, at: Stamp, flags: seq<string>): seq<Telemetry> {
    seq(|flags|, i requires 0 <= i < |flags| => Telemetry(nodeId, at, flags[i]))
  }

  predicate Supported(flag: string) {
    flag == "portal_unreachable" || flag == "local_check_execution_failed" || flag == "voting_key_expiry_risk" || flag == "certificate_expiry_risk"
  }

  predicate LatestIs(s: State, t: Telemetry) {
    (t.nodeId, t.code) in s.latestTelemetry && s.latestTelemetry[(t.nodeId, t.code)] == t
  }

  /** The flags of a telemetry request are recorded in turn up to the first that is not supported, or the first
      whose notification went out but could not be saved: that is what the error says, and without an error
      all of them are. */
  lemma {:induction false} FlagsRecorded(c: Config, sys: Sys, nodeId: string, at: Stamp, flags: seq<string>, n: nat, env: Env) returns (m: nat)
    requires n <= |flags|
    ensures var (t, error) := FlagsStep(c, sys, nodeId, at, flags, n, env);
      && m <= n && t.mem.telemetry == sys.mem.telemetry + Recorded(nodeId, at, flags[..m])
      && (forall i :: 0 <= i < m ==> Supported(flags[i]) && LatestIs(t.mem, Telemetry(nodeId, at, flags[i])))
      && (error.None? ==> m == n)
      && (error.Some? ==> error.value == InvalidWarningCode || error.value == PersistFailed)
      && (error == Some(InvalidWarningCode) ==> m < n && !Supported(flags[m]))
      && (error == Some(PersistFailed) ==> m > 0 && !env.io(m - 1).saves && env.io(m - 1).sends)
  {
    hide Notify, Recorded, Supported, LatestIs;
    m := 0;
    if n == 0 {
      NothingRecorded(nodeId, at, flags);
    } else {
      m := FlagsRecorded(c, sys, nodeId, at, flags, n - 1, env);
      var (before, error) := FlagsStep(c, sys, nodeId, at, flags, n - 1, env);
      var flag := flags[n - 1];
      SupportedFlags(flag);
      if error.None? && flag in WARNING_CODES {
        var noted := before.(mem := WithTelemetry(before.mem, Telemetry(nodeId, at, flag)));
        NotifyKeepsTelemetry(c, noted, nodeId, flag, at, env.now, env.io(n - 1));
        var after := Notify(c, noted, nodeId, flag, at, env.now, env.io(n - 1)).0;
        LatestGrow(before.mem, after.mem, nodeId, at, flags, n);
        m := n;
        OneMoreRecorded(nodeId, at, flags, n);
      }
    }
  }

  lemma LatestGrow(s: State, t: State, nodeId: string, at: Stamp, flags: seq<string>, n: nat)
    requires 0 < n <= |flags| && t.latestTelemetry == WithTelemetry(s, Telemetry(nodeId, at, flags[n - 1])).latestTelemetry
    requires forall i :: 0 <= i < n - 1 ==> LatestIs(s, Telemetry(nodeId, at, flags[i]))
    ensures forall i :: 0 <= i < n ==> LatestIs(t, Telemetry(nodeId, at, flags[i]))
  {
    forall i | 0 <= i < n
      ensures LatestIs(t, Telemetry(nodeId, at, flags[i]))
    {
      assert i < n - 1 ==> LatestIs(s, Telemetry(nodeId, at, flags[i]));
    }
  }

  lemma SupportedFlags(flag: string)
    ensures flag in WARNING_CODES <==> Supported(flag)
  {
  }

  lemma NothingRecorded(nodeId: string, at: Stamp, flags: seq<string>)
    ensures Recorded(nodeId, at, flags[..0]) == []
  {
  }

  lemma OneMoreRecorded(nodeId: string, at: Stamp, flags: seq<string>, n: nat)
    requires 0 < n <= |flags|
    ensures Recorded(nodeId, at, flags[..n]) == Recorded(nodeId, at, flags[..n - 1]) + [Telemetry(nodeId, at, flags[n - 1])]
  {
    assert flags[..n] == flags[..n - 1] + [flags[n - 1]];
  }

  lemma NotifyKeepsTelemetry(c: Config, sys: Sys, nodeId: string, code: string, at: Stamp, now: int, io: Io)
    ensures Notify(c, sys, nodeId, code, at, now, io).0.mem.telemetry == sys.mem.telemetry
    ensures Notify(c, sys, nodeId, code, at, now, io).0.mem.latestTelemetry == sys.mem.latestTelemetry
    ensures !Notify(c, sys, nodeId, code, at, now, io).1 ==> io.sends && !io.saves
  {
    hide SnapshotOf, RecipientOf, CoolingDown;
  }

  /** A scan that finds no node silent too long changes nothing, not even the disk. */
  lemma QuietScan(c: Config, seed: map<string, Node>, run: seq<Event>, env: Env)
    requires SeedOk(seed) && Lawful(c, seed, run)
    requires var s := After(c, seed, run).mem;
      forall n :: n in s.nodes ==> !SilentFor(s, n, env.now, c.staleAfter) && !SilentFor(s, n, env.now, c.failedAfter)
    ensures Step(c, seed, After(c, seed, run), Scan, env) == After(c, seed, run)
  {
    hide After, Lawful, SysOk, ScanStep, HeartbeatAlert, Sorting, SilentFor;
    RunOk(c, seed, run);
    var sys := After(c, seed, run);
    SettledAcceptable(c, seed, sys);
    var nodes := Sorting(sys.mem.nodes, NodeOrder);
    forall i | 0 <= i < |nodes|
      ensures HeartbeatAlert(c, nodes[i], env.now).None?
    {
      ListedNode(seed, sys.mem.nodes, i);
      HeartbeatCodes(c, sys.mem, nodes[i], env.now);
    }
    NobodyAlerted(c, sys, nodes, |nodes|, env);
  }

  lemma {:induction false} NobodyAlerted(c: Config, sys: Sys, nodes: seq<Node>, n: nat, env: Env)
    requires n <= |nodes| && forall i :: 0 <= i < |nodes| ==> HeartbeatAlert(c, nodes[i], env.now).None?
    ensures ScanStep(c, sys, nodes, n, env) == sys
  {
    hide HeartbeatAlert, Notify;
    if n > 0 {
      NobodyAlerted(c, sys, nodes, n - 1, env);
    }
  }

  // ---- To whom ----

  /** The operator's address as configured for the node, or the fallback; nothing is sent to nobody. */
  predicate Addressed(c: Config, seed: map<string, Node>, d: Delivery) {
    && d.nodeId in seed
    && d.recipient == (if Trim(seed[d.nodeId].operatorEmail) != "" then Trim(seed[d.nodeId].operatorEmail) else Trim(c.fallbackRecipient))
    && (d.sent ==> d.recipient != "")
    && d.severity == if CooldownSeconds(d.code) == 900 then Critical else Warning
  }

  ghost predicate AllAddressed(c: Config, seed: map<string, Node>, log: seq<Delivery>) {
    forall i :: 0 <= i < |log| ==> Addressed(c, seed, log[i])
  }

  ghost predicate Addressing(c: Config, seed: map<string, Node>, sys: Sys) {
    SysOk(c, seed, sys) && AllAddressed(c, seed, sys.mem.deliveries) && AllAddressed(c, seed, Back(seed, sys.disk).deliveries)
  }

  ghost function AddressingOf(c: Config, seed: map<string, Node>): Invariant {
    sys => Addressing(c, seed, sys)
  }

  lemma PersistAddressing(c: Config, seed: map<string, Node>, sys: Sys, saves: bool)
    requires Addressing(c, seed, sys)
    ensures Addressing(c, seed, Persist(sys, saves))
  {
    hide SysOk, SnapshotOf, Back, AllAddressed;
    PersistOk(c, seed, sys, saves);
    MemOk(c, seed, sys);
    SaveComesBack(c, seed, sys.mem);
  }

  lemma NotifyAddressing(c: Config, seed: map<string, Node>, sys: Sys, nodeId: string, code: string, at: Stamp, now: int, io: Io)
    requires Addressing(c, seed, sys) && nodeId in seed
    ensures Addressing(c, seed, Notify(c, sys, nodeId, code, at, now, io).0)
  {
    hide SysOk, SnapshotOf, Back, CoolingDown, Trim, NodesOk;
    NotifyOk(c, seed, sys, nodeId, code, at, now, io);
    MemOk(c, seed, sys);
    MemNodesOk(c, seed, sys.mem);
    RecipientConfigured(c, seed, sys.mem, nodeId);
    CooldownInSeconds(code);
    var t := Notify(c, sys, nodeId, code, at, now, io).0;
    MemOk(c, seed, t);
    SaveComesBack(c, seed, t.mem);
  }

  lemma RecipientConfigured(c: Config, seed: map<string, Node>, s: State, nodeId: string)
    requires NodesOk(seed, s.nodes) && nodeId in seed
    ensures RecipientOf(c, s, nodeId)
         == if Trim(seed[nodeId].operatorEmail) != "" then Trim(seed[nodeId].operatorEmail) else Trim(c.fallbackRecipient)
  {
    hide Trim;
    assert SameSeed(s.nodes[nodeId], seed[nodeId]);
  }

  lemma AddressingClosed(c: Config, seed: map<string, Node>)
    ensures Closed(c, seed.Keys, AddressingOf(c, seed))
  {
    hide Addressing, Notify, WithTelemetry, Persist;
    var inv := AddressingOf(c, seed);
    forall sys, nodeId, code, at, now: nat, io | inv(sys) && nodeId in seed.Keys
      ensures inv(Notify(c, sys, nodeId, code, at, now, io).0)
    {
      NotifyAddressing(c, seed, sys, nodeId, code, at, now, io);
    }
    forall sys: Sys, t: Telemetry | inv(sys) && t.nodeId in seed.Keys
      ensures inv(sys.(mem := WithTelemetry(sys.mem, t)))
    {
      TelemetryAddressing(c, seed, sys, t);
    }
    forall sys | inv(sys)
      ensures inv(Persist(sys, true))
    {
      PersistAddressing(c, seed, sys, true);
    }
  }

  lemma TelemetryAddressing(c: Config, seed: map<string, Node>, sys: Sys, t: Telemetry)
    requires Addressing(c, seed, sys) && t.nodeId in seed
    ensures Addressing(c, seed, sys.(mem := WithTelemetry(sys.mem, t)))
  {
    hide SysOk, Back, AllAddressed;
    TelemetryKeepsOrder(c, seed, sys, t);
  }

  lemma AddressingStep(c: Config, seed: map<string, Node>, sys: Sys, e: Event)
    requires SeedOk(seed) && Addressing(c, seed, sys) && Possible(c, sys, e)
    ensures Addressing(c, seed, Step(c, seed, sys, e.q, e.env))
  {
    hide SysOk, Closed, Settled, RequestError, Noted, LooksFound, Handle, RestartStep, NodesOk, AllAddressed, Back;
    AddressingClosed(c, seed);
    MemOk(c, seed, sys);
    MemNodesOk(c, seed, sys.mem);
    if RequestError(c, sys.mem, e.q, e.env.now).None? && !e.q.Restart? {
      SettledAddressing(c, seed, sys, e);
    }
    RestartAddressing(c, seed, sys);
    HandleKeeps(c, seed, AddressingOf(c, seed), sys, e.q, e.env);
    StepOk(c, seed, sys, e);
    LoggedKeepsStores(c, seed, sys, e);
  }

  lemma SettledAddressing(c: Config, seed: map<string, Node>, sys: Sys, e: Event)
    requires SeedOk(seed) && Addressing(c, seed, sys) && Possible(c, sys, e)
    requires RequestError(c, sys.mem, e.q, e.env.now).None? && !e.q.Restart?
    ensures Addressing(c, seed, sys.(mem := Settled(c, sys.mem, e.q, e.env)))
    ensures NodesOk(seed, Settled(c, sys.mem, e.q, e.env).nodes)
  {
    hide SysOk, Settled, RequestError, Noted, LooksFound, NodesOk, AllAddressed, Back;
    SettledContinues(c, seed, sys, e);
    SettledAlerts(c, sys.mem, e.q, e.env);
  }

  lemma RestartAddressing(c: Config, seed: map<string, Node>, sys: Sys)
    requires SeedOk(seed) && Addressing(c, seed, sys)
    ensures Addressing(c, seed, RestartStep(seed, sys))
  {
    hide SysOk, AllAddressed, Loaded, Loadable;
    RestartOk(c, seed, sys);
    RestartComesBack(c, seed, sys);
  }

  lemma {:induction false} AddressingRun(c: Config, seed: map<string, Node>, run: seq<Event>)
    requires SeedOk(seed) && Lawful(c, seed, run)
    ensures Addressing(c, seed, After(c, seed, run))
  {
    hide SysOk, Possible, Step, SeedOk, AllAddressed;
    if run == [] {
      StartAddressing(c, seed);
    } else {
      AddressingRun(c, seed, run[..|run| - 1]);
      AddressingStep(c, seed, After(c, seed, run[..|run| - 1]), run[|run| - 1]);
    }
  }

  lemma StartAddressing(c: Config, seed: map<string, Node>)
    requires SeedOk(seed)
    ensures Addressing(c, seed, Start(seed))
  {
    hide SysOk;
    StartOk(c, seed);
  }

  /** In every run each recorded delivery is addressed to the operator configured for its node, or to the
      fallback where none is, with the severity of its code. */
  lemma DeliveriesAddressed(c: Config, seed: map<string, Node>, run: seq<Event>, i: nat)
    requires SeedOk(seed) && Lawful(c, seed, run) && i < |After(c, seed, run).mem.deliveries|
    ensures Addressed(c, seed, After(c, seed, run).mem.deliveries[i])
  {
    hide After, Lawful, SysOk, Addressed, Back;
    AddressingRun(c, seed, run);
  }
}
