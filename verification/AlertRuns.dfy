/** Alerts over whole runs: the cooldown between notifications of one kind about one node. */
module AlertRuns {
  import opened Records
  import opened PortalState
  import opened Snapshots
  import opened Portal
  import opened Stepping
  import opened Reachable
  import opened PortalRuns
  import opened Accounts
  import opened HeartbeatRuns

  type AlertStates = map<(string, string, Severity), AlertState>

  /** The alert states that a delivery log gives: for each node and alert, the last sent delivery. */
  function Remembered(log: seq<Delivery>): AlertStates {
    if log == [] then map[]
    else
      var front, d := Remembered(log[..|log| - 1]), log[|log| - 1];
      if d.sent then front[(d.nodeId, d.code, d.severity) := AlertState(d.nodeId, d.code, d.severity, d.sentAt, d.recipient)] else front
  }

  predicate SameAlert(a: Delivery, b: Delivery) {
    a.sent && b.sent && a.nodeId == b.nodeId && a.code == b.code
  }

  /** Sent deliveries of the same alert are recorded at least its cooldown apart. */
  ghost predicate Spaced(log: seq<Delivery>) {
    forall i, j :: 0 <= i < j < |log| && SameAlert(log[i], log[j]) ==> log[j].sentAt >= log[i].sentAt + Cooldown(SeverityOf(log[i].code))
  }

  ghost predicate SeverityKept(log: seq<Delivery>) {
    forall i :: 0 <= i < |log| ==> log[i].severity == SeverityOf(log[i].code)
  }

  ghost predicate AlertsOk(s: State) {
    s.alertStates == Remembered(s.deliveries) && Spaced(s.deliveries) && SeverityKept(s.deliveries)
  }

  /** No sent delivery is later than the one remembered for its alert. */
  lemma {:induction false} RememberedIsLatest(log: seq<Delivery>, i: nat)
    requires i < |log| && log[i].sent && Spaced(log) && SeverityKept(log)
    ensures var key := (log[i].nodeId, log[i].code, SeverityOf(log[i].code));
      key in Remembered(log) && log[i].sentAt <= Remembered(log)[key].lastSentAt
  {
    var n := |log| - 1;
    assert log[n].severity == SeverityOf(log[n].code) && log[i].severity == SeverityOf(log[i].code);
    if i < n {
      assert Spaced(log[..n]) && SeverityKept(log[..n]);
      RememberedIsLatest(log[..n], i);
      if SameAlert(log[i], log[n]) {
        assert log[n].sentAt >= log[i].sentAt + Cooldown(SeverityOf(log[i].code));
      }
    }
  }

  lemma SuccessSpaced(s: State, nodeId: string, code: string, recipient: string, at: Stamp, now: int)
    requires AlertsOk(s) && !CoolingDown(s, nodeId, code, now)
    ensures AlertsOk(WithSuccess(s, nodeId, code, recipient, at, now))
  {
    hide Remembered;
    var d := DeliveryOf(nodeId, code, recipient, at, now, true);
    RememberedAppend(s.deliveries, d);
    var log := s.deliveries + [d];
    forall i, j | 0 <= i < j < |log| && SameAlert(log[i], log[j])
      ensures log[j].sentAt >= log[i].sentAt + Cooldown(SeverityOf(log[i].code))
    {
      if j == |log| - 1 {
        RememberedIsLatest(s.deliveries, i);
        WholeSeconds(now, s.alertStates[(nodeId, code, SeverityOf(code))].lastSentAt + Cooldown(SeverityOf(code)));
      }
    }
  }

  lemma WholeSeconds(now: int, seconds: int)
    requires now >= seconds * NANOS
    ensures Seconds(now) >= seconds
  {
  }

  lemma RememberedAppend(log: seq<Delivery>, d: Delivery)
    ensures Remembered(log + [d]) ==
      if d.sent then Remembered(log)[(d.nodeId, d.code, d.severity) := AlertState(d.nodeId, d.code, d.severity, d.sentAt, d.recipient)]
      else Remembered(log)
  {
    assert (log + [d])[..|log|] == log;
  }

  lemma FailureSpaced(s: State, nodeId: string, code: string, recipient: string, at: Stamp, now: int)
    requires AlertsOk(s)
    ensures AlertsOk(WithFailure(s, nodeId, code, recipient, at, now))
  {
    hide Remembered;
    RememberedAppend(s.deliveries, DeliveryOf(nodeId, code, recipient, at, now, false));
  }

  // ---- In the store, in all runs ----

  /** The store's alerts are in order, and so are those a restart would come back to. */
  ghost predicate Calm(c: Config, seed: map<string, Node>, sys: Sys) {
    SysOk(c, seed, sys) && AlertsOk(sys.mem) && AlertsOk(Back(seed, sys.disk))
  }

  ghost function CalmOf(c: Config, seed: map<string, Node>): Invariant {
    sys => Calm(c, seed, sys)
  }

  lemma PersistCalm(c: Config, seed: map<string, Node>, sys: Sys, saves: bool)
    requires Calm(c, seed, sys)
    ensures Calm(c, seed, Persist(sys, saves))
  {
    hide SysOk, SnapshotOf, Back, Spaced, SeverityKept;
    PersistOk(c, seed, sys, saves);
    MemOk(c, seed, sys);
    SaveComesBack(c, seed, sys.mem);
  }

  lemma NotifyCalm(c: Config, seed: map<string, Node>, sys: Sys, nodeId: string, code: string, at: Stamp, now: int, io: Io)
    requires Calm(c, seed, sys) && nodeId in seed
    ensures Calm(c, seed, Notify(c, sys, nodeId, code, at, now, io).0)
  {
    hide SysOk, SnapshotOf, Back, RecipientOf, CoolingDown, AlertsOk, WithSuccess, WithFailure;
    NotifyOk(c, seed, sys, nodeId, code, at, now, io);
    var recipient := RecipientOf(c, sys.mem, nodeId);
    var t := Notify(c, sys, nodeId, code, at, now, io).0;
    FailureSpaced(sys.mem, nodeId, code, recipient, at, now);
    if !CoolingDown(sys.mem, nodeId, code, now) {
      SuccessSpaced(sys.mem, nodeId, code, recipient, at, now);
    }
    MemOk(c, seed, t);
    SaveComesBack(c, seed, t.mem);
    ReloadedAlerts(t.mem);
  }

  lemma ReloadedAlerts(s: State)
    requires AlertsOk(s)
    ensures AlertsOk(Reloaded(s))
  {
  }

  lemma TelemetryCalm(c: Config, seed: map<string, Node>, sys: Sys, t: Telemetry)
    requires Calm(c, seed, sys) && t.nodeId in seed
    ensures Calm(c, seed, sys.(mem := WithTelemetry(sys.mem, t)))
  {
    hide SysOk, Back, Spaced, SeverityKept;
    TelemetryKeepsOrder(c, seed, sys, t);
  }

  lemma CalmClosed(c: Config, seed: map<string, Node>)
    ensures Closed(c, seed.Keys, CalmOf(c, seed))
  {
    hide Calm, Notify, WithTelemetry, Persist;
    var inv := CalmOf(c, seed);
    forall sys, nodeId, code, at, now: nat, io | inv(sys) && nodeId in seed.Keys
      ensures inv(Notify(c, sys, nodeId, code, at, now, io).0)
    {
      NotifyCalm(c, seed, sys, nodeId, code, at, now, io);
    }
    forall sys: Sys, t: Telemetry | inv(sys) && t.nodeId in seed.Keys
      ensures inv(sys.(mem := WithTelemetry(sys.mem, t)))
    {
      TelemetryCalm(c, seed, sys, t);
    }
    forall sys | inv(sys)
      ensures inv(Persist(sys, true))
    {
      PersistCalm(c, seed, sys, true);
    }
  }

  lemma SettledAlerts(c: Config, s: State, q: Request, env: Env)
    requires RequestError(c, s, q, env.now).None?
    ensures Settled(c, s, q, env).alertStates == s.alertStates && Settled(c, s, q, env).deliveries == s.deliveries
  {
    hide Rebuilt, RebuildOf, HeartbeatError, CheckError, ProbeError, EvidenceError, TelemetryError, EnrollError, WithEvidence;
    OnlyDerivedChanges(c, Noted(c, s, q, env.now), RebuildOf(q), env);
  }

  lemma CalmStep(c: Config, seed: map<string, Node>, sys: Sys, e: Event)
    requires SeedOk(seed) && Calm(c, seed, sys) && Possible(c, sys, e)
    ensures Calm(c, seed, Step(c, seed, sys, e.q, e.env))
  {
    hide SysOk, Closed, Settled, RequestError, Noted, LooksFound, Handle, RestartStep, NodesOk, AlertsOk, Back;
    CalmClosed(c, seed);
    MemOk(c, seed, sys);
    MemNodesOk(c, seed, sys.mem);
    if RequestError(c, sys.mem, e.q, e.env.now).None? && !e.q.Restart? {
      SettledCalm(c, seed, sys, e);
    }
    RestartCalm(c, seed, sys);
    HandleKeeps(c, seed, CalmOf(c, seed), sys, e.q, e.env);
    LoggedCalm(c, seed, Handle(c, seed, sys, e.q, e.env).0, e.q, Handle(c, seed, sys, e.q, e.env).1);
  }

  lemma SettledCalm(c: Config, seed: map<string, Node>, sys: Sys, e: Event)
    requires SeedOk(seed) && Calm(c, seed, sys) && Possible(c, sys, e)
    requires RequestError(c, sys.mem, e.q, e.env.now).None? && !e.q.Restart?
    ensures Calm(c, seed, sys.(mem := Settled(c, sys.mem, e.q, e.env)))
    ensures NodesOk(seed, Settled(c, sys.mem, e.q, e.env).nodes)
  {
    hide SysOk, Settled, RequestError, Noted, LooksFound, NodesOk, Spaced, SeverityKept, Back;
    SettledContinues(c, seed, sys, e);
    SettledAlerts(c, sys.mem, e.q, e.env);
  }

  lemma LoggedCalm(c: Config, seed: map<string, Node>, sys: Sys, q: Request, reply: Reply)
    requires Calm(c, seed, sys)
    ensures Calm(c, seed, Logged(sys, q, reply))
  {
    hide StateOk, SavedOk, AlertsOk, Back;
  }

  lemma RestartCalm(c: Config, seed: map<string, Node>, sys: Sys)
    requires SeedOk(seed) && Calm(c, seed, sys)
    ensures Calm(c, seed, RestartStep(seed, sys))
  {
    hide SysOk, AlertsOk, Loaded, Loadable;
    RestartOk(c, seed, sys);
    RestartComesBack(c, seed, sys);
  }

  lemma {:induction false} CalmRun(c: Config, seed: map<string, Node>, run: seq<Event>)
    requires SeedOk(seed) && Lawful(c, seed, run)
    ensures Calm(c, seed, After(c, seed, run))
  {
    hide SysOk, Possible, Step, SeedOk, AlertsOk;
    if run == [] {
      StartCalm(c, seed);
    } else {
      CalmRun(c, seed, run[..|run| - 1]);
      CalmStep(c, seed, After(c, seed, run[..|run| - 1]), run[|run| - 1]);
    }
  }

  lemma StartCalm(c: Config, seed: map<string, Node>)
    requires SeedOk(seed)
    ensures Calm(c, seed, Start(seed))
  {
    hide SysOk;
    StartOk(c, seed);
  }

  /** In every run, with any clocks, lost saves and restarts anywhere: the stored alert states are the
      last sent deliveries in the stored log, and the recorded times of any two sent deliveries of the
      same alert are at least its cooldown apart. */
  lemma ReachableAlertsSpaced(c: Config, seed: map<string, Node>, run: seq<Event>)
    requires SeedOk(seed) && Lawful(c, seed, run)
    ensures var s := After(c, seed, run).mem;
      && s.alertStates == Remembered(s.deliveries)
      && forall i, j :: 0 <= i < j < |s.deliveries| && SameAlert(s.deliveries[i], s.deliveries[j]) ==>
           s.deliveries[j].sentAt >= s.deliveries[i].sentAt + Cooldown(SeverityOf(s.deliveries[i].code))
  {
    hide After, Lawful, SysOk, Remembered, Back;
    CalmRun(c, seed, run);
  }

  // ---- Real send times, in runs that restart only from a current save ----

  predicate SameSent(a: Sent, b: Sent) {
    a.nodeId == b.nodeId && a.code == b.code
  }

  ghost predicate SendsSpaced(sent: seq<Sent>) {
    forall i, j :: 0 <= i < j < |sent| && SameSent(sent[i], sent[j]) ==> Seconds(sent[j].at) >= Seconds(sent[i].at) + Cooldown(SeverityOf(sent[i].code))
  }

  predicate RememberedBy(x: Sent, states: AlertStates) {
    var key := (x.nodeId, x.code, SeverityOf(x.code));
    key in states && Seconds(x.at) <= states[key].lastSentAt
  }

  ghost predicate SendsOk(sys: Sys) {
    SendsSpaced(sys.sent) && forall i :: 0 <= i < |sys.sent| ==> RememberedBy(sys.sent[i], sys.mem.alertStates)
  }

  lemma SendKept(sys: Sys, nodeId: string, code: string, recipient: string, at: Stamp, now: int)
    requires SendsOk(sys) && !CoolingDown(sys.mem, nodeId, code, now)
    ensures SendsOk(sys.(mem := WithSuccess(sys.mem, nodeId, code, recipient, at, now), sent := sys.sent + [Sent(nodeId, code, now)]))
  {
    var key := (nodeId, code, SeverityOf(code));
    var sent := sys.sent + [Sent(nodeId, code, now)];
    if key in sys.mem.alertStates {
      WholeSeconds(now, sys.mem.alertStates[key].lastSentAt + Cooldown(SeverityOf(code)));
    }
    forall i | 0 <= i < |sys.sent| && SameSent(sys.sent[i], sent[|sys.sent|])
      ensures Seconds(now) >= Seconds(sys.sent[i].at) + Cooldown(SeverityOf(code))
    {
      assert RememberedBy(sys.sent[i], sys.mem.alertStates);
    }
    forall i | 0 <= i < |sent|
      ensures RememberedBy(sent[i], WithSuccess(sys.mem, nodeId, code, recipient, at, now).alertStates)
    {
      assert i < |sys.sent| ==> RememberedBy(sys.sent[i], sys.mem.alertStates);
    }
  }

  lemma NotifySends(c: Config, sys: Sys, nodeId: string, code: string, at: Stamp, now: int, io: Io)
    requires SendsOk(sys)
    ensures SendsOk(Notify(c, sys, nodeId, code, at, now, io).0)
  {
    hide SnapshotOf, RecipientOf, CoolingDown, WithSuccess, SendsSpaced;
    if !CoolingDown(sys.mem, nodeId, code, now) {
      SendKept(sys, nodeId, code, RecipientOf(c, sys.mem, nodeId), at, now);
    }
  }

  ghost function SendsOkOf(): Invariant {
    sys => SendsOk(sys)
  }

  lemma SendsClosed(c: Config, seed: map<string, Node>)
    ensures Closed(c, seed.Keys, SendsOkOf())
  {
    hide Notify, SnapshotOf, SendsSpaced;
    var inv := SendsOkOf();
    forall sys, nodeId, code, at, now: nat, io | inv(sys) && nodeId in seed.Keys
      ensures inv(Notify(c, sys, nodeId, code, at, now, io).0)
    {
      NotifySends(c, sys, nodeId, code, at, now, io);
    }
  }

  lemma SendsStep(c: Config, seed: map<string, Node>, sys: Sys, e: Event)
    requires SeedOk(seed) && SysOk(c, seed, sys) && Possible(c, sys, e) && SendsOk(sys)
    requires e.q.Restart? ==> Saved(seed, sys)
    ensures SendsOk(Step(c, seed, sys, e.q, e.env))
  {
    hide SysOk, Closed, Settled, RequestError, Noted, LooksFound, Handle, RestartStep, NodesOk, SendsSpaced, Back, Saved;
    SendsClosed(c, seed);
    MemOk(c, seed, sys);
    MemNodesOk(c, seed, sys.mem);
    if RequestError(c, sys.mem, e.q, e.env.now).None? && !e.q.Restart? {
      SettledAlerts(c, sys.mem, e.q, e.env);
      SettledContinues(c, seed, sys, e);
    }
    if e.q.Restart? {
      CleanComesBack(c, seed, sys);
      RestartComesBack(c, seed, sys);
      RestartSends(seed, sys);
    }
    HandleKeeps(c, seed, SendsOkOf(), sys, e.q, e.env);
  }

  lemma RestartSends(seed: map<string, Node>, sys: Sys)
    ensures RestartStep(seed, sys).sent == sys.sent
  {
    hide Loaded, Loadable;
  }

  lemma {:induction false} SendsRun(c: Config, seed: map<string, Node>, run: seq<Event>)
    requires SeedOk(seed) && Lawful(c, seed, run) && CleanRestarts(c, seed, run)
    ensures SendsOk(After(c, seed, run))
  {
    hide SysOk, Possible, Step, SeedOk, Saved;
    if run != [] {
      var front := run[..|run| - 1];
      SendsRun(c, seed, front);
      RunOk(c, seed, front);
      SendsStep(c, seed, After(c, seed, front), run[|run| - 1]);
    }
  }

  /** In every run that restarts only from a current save, with no assumption on the clock: two
      notifications of the same alert are really sent more than the cooldown minus one second apart. */
  lemma SendsApart(c: Config, seed: map<string, Node>, run: seq<Event>, i: nat, j: nat)
    requires SeedOk(seed) && Lawful(c, seed, run) && CleanRestarts(c, seed, run)
    requires var sent := After(c, seed, run).sent; i < j < |sent| && SameSent(sent[i], sent[j])
    ensures var sent := After(c, seed, run).sent;
      sent[j].at - sent[i].at > (Cooldown(SeverityOf(sent[i].code)) - 1) * NANOS
  {
    hide After, Lawful, CleanRestarts, Cooldown;
    SendsRun(c, seed, run);
    var sent := After(c, seed, run).sent;
    assert Seconds(sent[j].at) >= Seconds(sent[i].at) + Cooldown(SeverityOf(sent[i].code));
    FractionsDropped(sent[i].at, sent[j].at, Cooldown(SeverityOf(sent[i].code)));
  }

  lemma FractionsDropped(t: int, u: int, seconds: int)
    requires Seconds(u) >= Seconds(t) + seconds
    ensures u - t > (seconds - 1) * NANOS
  {
    assert u >= Seconds(u) * NANOS && t < (Seconds(t) + 1) * NANOS;
  }

  /** When a notification is sent from a saved store and the portal then restarts, the cooldown is in
      force exactly if the send was saved. */
  lemma SendRememberedIff(c: Config, seed: map<string, Node>, sys: Sys, nodeId: string, code: string, at: Stamp, now: nat, io: Io)
    requires SeedOk(seed) && SysOk(c, seed, sys) && Saved(seed, sys) && nodeId in seed
    requires !CoolingDown(sys.mem, nodeId, code, now) && RecipientOf(c, sys.mem, nodeId) != "" && io.sends
    ensures CoolingDown(RestartStep(seed, Notify(c, sys, nodeId, code, at, now, io).0).mem, nodeId, code, now) <==> io.saves
  {
    hide SysOk, Saved, Back, RestartStep, SnapshotOf, RecipientOf;
    var t := Notify(c, sys, nodeId, code, at, now, io).0;
    CleanComesBack(c, seed, sys);
    NotifyOk(c, seed, sys, nodeId, code, at, now, io);
    RestartComesBack(c, seed, t);
    MemOk(c, seed, t);
    SaveComesBack(c, seed, t.mem);
  }
}
