/** Whole runs of the portal: any requests in any order, any clock, any scan order, lost saves and
    restarts. */
module PortalRuns {
  import opened Records
  import opened Tables
  import opened PortalState
  import opened Snapshots
  import opened Portal
  import opened Stepping
  import opened Views
  import opened Gradings
  import opened Reachable

  /** The store is in order, and so is the one that a restart would come back to. */
  ghost predicate SysOk(c: Config, seed: map<string, Node>, sys: Sys) {
    && StateOk(c, seed, sys.mem)
    && (sys.disk.Some? ==> SavedOk(c, seed, sys.disk.value))
  }

  /** The snapshot is accepted, loads to a store in order, and that store saves to it again. */
  ghost predicate SavedOk(c: Config, seed: map<string, Node>, snap: Snapshot) {
    && Loadable(seed, snap)
    && StateOk(c, seed, Loaded(seed, snap))
    && SnapshotOf(Loaded(seed, snap)) == snap
  }

  lemma StartOk(c: Config, seed: map<string, Node>)
    requires SeedOk(seed)
    ensures SysOk(c, seed, Start(seed))
  {
    hide ViewsOk;
    EmptyViews(c, seed);
  }

  lemma SavingOk(c: Config, seed: map<string, Node>, s: State)
    requires StateOk(c, seed, s)
    ensures SavedOk(c, seed, SnapshotOf(s))
  {
    hide WellFormed, ViewsOk, SnapshotOf, Loaded, Loadable, RegistrationsKept, TablesKeyed, GroundedExcept, SourcesKept;
    SnapshotRoundTrip(seed, s);
    BasesKeyed(seed, s);
    NoNodeChanged(s.nodes);
    NothingDue(c, s, Reloaded(s));
    NothingChanged(s, Reloaded(s), {});
    GroundedKept(s, Reloaded(s), {});
  }

  lemma BasesKeyed(seed: map<string, Node>, s: State)
    requires WellFormed(seed, s)
    ensures KeyedBy(s.derived.bases, BaseKey)
  {
    hide NodesOk, EventsOk, LogsOk, EvidenceOk;
    KeyedTables(s.derived, seed.Keys);
  }

  lemma NoNodeChanged(nodes: map<string, Node>)
    ensures RegistrationsKept(nodes, nodes)
  {
  }

  // ---- Alerts and saves ----

  lemma DeliveryLogged(c: Config, seed: map<string, Node>, s: State, t: State)
    requires StateOk(c, seed, s)
    requires t == s.(alertStates := t.alertStates, deliveries := t.deliveries, operational := t.operational,
      telemetry := t.telemetry, latestTelemetry := t.latestTelemetry)
    requires LogOk(t.telemetry, TelemetryNode, seed.Keys) && LogOk(t.deliveries, DeliveryNode, seed.Keys)
    requires LogOk(t.operational, OperationalNode, seed.Keys)
    requires TableOk(t.latestTelemetry, TelemetryKey, TelemetryNode, seed.Keys) && TableOk(t.alertStates, AlertKeyOf, AlertNode, seed.Keys)
    ensures StateOk(c, seed, t)
  {
    hide TableOk, LogOk, EvidenceOk, DerivedOk, ViewsOk, NodesOk, RegistrationsKept, GroundedExcept, SourcesKept;
    BasesKeyed(seed, s);
    NoNodeChanged(s.nodes);
    NothingDue(c, s, t);
    NothingChanged(s, t, {});
    GroundedKept(s, t, {});
  }

  lemma LogsHold(seed: map<string, Node>, s: State)
    requires WellFormed(seed, s)
    ensures LogOk(s.telemetry, TelemetryNode, seed.Keys) && LogOk(s.deliveries, DeliveryNode, seed.Keys)
    ensures LogOk(s.operational, OperationalNode, seed.Keys)
    ensures TableOk(s.latestTelemetry, TelemetryKey, TelemetryNode, seed.Keys) && TableOk(s.alertStates, AlertKeyOf, AlertNode, seed.Keys)
  {
    hide TableOk, LogOk, NodesOk, EvidenceOk, DerivedOk;
  }

  lemma FailureOk(c: Config, seed: map<string, Node>, s: State, nodeId: string, code: string, recipient: string, at: Stamp, now: int)
    requires StateOk(c, seed, s) && nodeId in seed
    ensures StateOk(c, seed, WithFailure(s, nodeId, code, recipient, at, now))
  {
    hide TableOk, LogOk, ViewsOk, WellFormed;
    LogsHold(seed, s);
    RowAppended(s.deliveries, DeliveryNode, seed.Keys, DeliveryOf(nodeId, code, recipient, at, now, false));
    RowAppended(s.operational, OperationalNode, seed.Keys, Operational(nodeId, DELIVERY_FAILED, Seconds(now)));
    DeliveryLogged(c, seed, s, WithFailure(s, nodeId, code, recipient, at, now));
  }

  lemma SuccessOk(c: Config, seed: map<string, Node>, s: State, nodeId: string, code: string, recipient: string, at: Stamp, now: int)
    requires StateOk(c, seed, s) && nodeId in seed
    ensures StateOk(c, seed, WithSuccess(s, nodeId, code, recipient, at, now))
  {
    hide TableOk, LogOk, ViewsOk, WellFormed;
    LogsHold(seed, s);
    RowAppended(s.deliveries, DeliveryNode, seed.Keys, DeliveryOf(nodeId, code, recipient, at, now, true));
    RowStored(s.alertStates, AlertKeyOf, AlertNode, seed.Keys, AlertState(nodeId, code, SeverityOf(code), Seconds(now), recipient));
    DeliveryLogged(c, seed, s, WithSuccess(s, nodeId, code, recipient, at, now));
  }

  lemma TelemetryOk(c: Config, seed: map<string, Node>, s: State, t: Telemetry)
    requires StateOk(c, seed, s) && t.nodeId in seed
    ensures StateOk(c, seed, WithTelemetry(s, t))
  {
    hide TableOk, LogOk, ViewsOk, WellFormed;
    LogsHold(seed, s);
    RowAppended(s.telemetry, TelemetryNode, seed.Keys, t);
    RowStored(s.latestTelemetry, TelemetryKey, TelemetryNode, seed.Keys, t);
    DeliveryLogged(c, seed, s, WithTelemetry(s, t));
  }

  lemma PersistOk(c: Config, seed: map<string, Node>, sys: Sys, saves: bool)
    requires SysOk(c, seed, sys)
    ensures SysOk(c, seed, Persist(sys, saves))
  {
    hide StateOk, SnapshotOf, SavedOk;
    SavingOk(c, seed, sys.mem);
  }

  lemma NotifyOk(c: Config, seed: map<string, Node>, sys: Sys, nodeId: string, code: string, at: Stamp, now: int, io: Io)
    requires SysOk(c, seed, sys) && nodeId in seed
    ensures SysOk(c, seed, Notify(c, sys, nodeId, code, at, now, io).0)
  {
    hide StateOk, SavedOk, WithFailure, WithSuccess, RecipientOf, CoolingDown, Persist;
    var recipient := RecipientOf(c, sys.mem, nodeId);
    FailureOk(c, seed, sys.mem, nodeId, code, recipient, at, now);
    SuccessOk(c, seed, sys.mem, nodeId, code, recipient, at, now);
    PersistOk(c, seed, sys.(mem := WithFailure(sys.mem, nodeId, code, recipient, at, now)), io.saves);
    PersistOk(c, seed, sys.(mem := WithSuccess(sys.mem, nodeId, code, recipient, at, now), sent := sys.sent + [Sent(nodeId, code, now)]), io.saves);
  }

  ghost function InOrder(c: Config, seed: map<string, Node>): Invariant {
    sys => SysOk(c, seed, sys)
  }

  lemma InOrderClosed(c: Config, seed: map<string, Node>)
    ensures Closed(c, seed.Keys, InOrder(c, seed))
  {
    hide SysOk, Notify, WithTelemetry, Persist;
    var inv := InOrder(c, seed);
    forall sys, nodeId, code, at, now: nat, io | inv(sys) && nodeId in seed.Keys
      ensures inv(Notify(c, sys, nodeId, code, at, now, io).0)
    {
      NotifyOk(c, seed, sys, nodeId, code, at, now, io);
    }
    forall sys: Sys, t: Telemetry | inv(sys) && t.nodeId in seed.Keys
      ensures inv(sys.(mem := WithTelemetry(sys.mem, t)))
    {
      TelemetryKeepsOrder(c, seed, sys, t);
    }
    forall sys | inv(sys)
      ensures inv(Persist(sys, true))
    {
      PersistOk(c, seed, sys, true);
    }
  }

  lemma TelemetryKeepsOrder(c: Config, seed: map<string, Node>, sys: Sys, t: Telemetry)
    requires SysOk(c, seed, sys) && t.nodeId in seed
    ensures SysOk(c, seed, sys.(mem := WithTelemetry(sys.mem, t)))
  {
    hide StateOk, SavedOk, WithTelemetry;
    TelemetryOk(c, seed, sys.mem, t);
  }

  // ---- Steps and runs ----

  /** What a restart comes back to: the last saved store, or the configured nodes. */
  lemma RestartOk(c: Config, seed: map<string, Node>, sys: Sys)
    requires SeedOk(seed) && SysOk(c, seed, sys)
    ensures SysOk(c, seed, RestartStep(seed, sys))
    ensures sys.disk.Some? ==> RestartStep(seed, sys).mem == Loaded(seed, sys.disk.value)
  {
    hide StateOk, SnapshotOf, Loadable, Loaded;
    StartOk(c, seed);
  }

  lemma NodesStayOk(c: Config, seed: map<string, Node>, s: State)
    requires StateOk(c, seed, s)
    ensures NodesOk(seed, s.nodes)
  {
    hide ViewsOk, EventsOk, LogsOk, EvidenceOk, DerivedOk;
  }

  lemma StepOk(c: Config, seed: map<string, Node>, sys: Sys, e: Event)
    requires SeedOk(seed) && SysOk(c, seed, sys) && Possible(c, sys, e)
    ensures SysOk(c, seed, Step(c, seed, sys, e.q, e.env))
  {
    hide StateOk, SavedOk, Closed, Settled, RequestError, Noted, LooksFound, Handle, RestartStep, NodesOk;
    InOrderClosed(c, seed);
    NodesStayOk(c, seed, sys.mem);
    if RequestError(c, sys.mem, e.q, e.env.now).None? {
      SettledOk(c, seed, sys.mem, e.q, e.env);
      NodesStayOk(c, seed, Settled(c, sys.mem, e.q, e.env));
    }
    RestartOk(c, seed, sys);
    HandleKeeps(c, seed, InOrder(c, seed), sys, e.q, e.env);
  }

  /** Every run leaves the store in order, and the one that a restart would come back to. */
  lemma {:induction false} RunOk(c: Config, seed: map<string, Node>, run: seq<Event>)
    requires SeedOk(seed) && Lawful(c, seed, run)
    ensures SysOk(c, seed, After(c, seed, run))
  {
    hide SysOk, Possible, SeedOk, Step, Start;
    if run == [] {
      StartOk(c, seed);
    } else {
      RunOk(c, seed, run[..|run| - 1]);
      StepOk(c, seed, After(c, seed, run[..|run| - 1]), run[|run| - 1]);
    }
  }
}
