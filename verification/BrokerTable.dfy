/**
 The broker's connection table: the sections of internal/broker/server.go, upgrade.go and
 worker_readiness_rpc.go that hold `Server.mu`, and the locked captures of status.go and
 agent_projection.go.

 Each section is a function from table to table. Class `Server` writes the same section with the
 source's loops and field updates and is proved to compute that function.
 */
module BrokerTable {

  /** Device IDs are only ever compared. */
  type Device = nat

  /** A session is an object in the program: here it is an identity with an entry in `sessions`. */
  type SessionId = nat

  datatype Option<T> = None | Some(value: T)

  datatype Session = Session(
    device: Device,
    version: string,
    revision: nat,
    syncReady: bool,
    workerReady: bool,
    versionOk: bool,
    draining: bool)

  datatype Table = Table(
    connections: map<Device, SessionId>,
    sessions: map<SessionId, Session>,
    latest: map<Device, nat>,
    generation: nat,
    required: string,
    intervention: set<Device>,
    upgradeDraining: bool,
    closed: bool)

  /** Every listed session exists and is listed under its own device. */
  ghost predicate WellLinked(t: Table) {
    forall d :: d in t.connections ==>
      t.connections[d] in t.sessions && t.sessions[t.connections[d]].device == d
  }

  function Latest(latest: map<Device, nat>, d: Device): nat {
    if d in latest then latest[d] else 0
  }

  predicate Compatible(required: string, version: string) {
    required == "" || version == required
  }

  predicate Listed(t: Table, id: SessionId) {
    id in t.sessions && t.sessions[id].device in t.connections && t.connections[t.sessions[id].device] == id
  }

  /** currentConnectionLocked finds a session for `d`. */
  predicate Current(t: Table, d: Device) {
    && d in t.connections
    && t.connections[d] in t.sessions
    && t.sessions[t.connections[d]].revision >= Latest(t.latest, d)
  }

  function CurrentSession(t: Table, d: Device): Session
    requires Current(t, d)
  {
    t.sessions[t.connections[d]]
  }

  predicate SyncReady(t: Table, d: Device) {
    Current(t, d) && CurrentSession(t, d).syncReady
  }

  predicate WorkerReady(t: Table, d: Device) {
    Current(t, d) && CurrentSession(t, d).workerReady
  }

  predicate Dispatchable(t: Table, d: Device) {
    SyncReady(t, d) && WorkerReady(t, d) && CurrentSession(t, d).versionOk && !CurrentSession(t, d).draining
  }

  // ---------------------------------------------------------------------------------------------
  // The view that status and agent snapshots report
  // ---------------------------------------------------------------------------------------------

  datatype Target = Target(syncReady: bool, workerReady: bool, dispatchable: bool)

  /** The connected devices and what is known of each. */
  function View(t: Table): map<Device, Target> {
    map d | d in t.connections && Current(t, d) ::
      Target(SyncReady(t, d), WorkerReady(t, d), Dispatchable(t, d))
  }

  function WorkerReadyDevices(t: Table): set<Device> {
    set d | d in t.connections && WorkerReady(t, d)
  }

  function DispatchableDevices(t: Table): set<Device> {
    set d | d in t.connections && Dispatchable(t, d)
  }

  /** Two tables whose current sessions agree in what a view reports have the same view. */
  lemma SameView(t: Table, u: Table)
    requires forall d :: Current(t, d) <==> Current(u, d)
    requires forall d :: Current(t, d) && Current(u, d) ==>
               && SyncReady(t, d) == SyncReady(u, d)
               && WorkerReady(t, d) == WorkerReady(u, d)
               && Dispatchable(t, d) == Dispatchable(u, d)
    ensures View(t) == View(u)
  {
    assert forall d :: d in View(t) <==> Current(t, d);
    assert forall d :: d in View(u) <==> Current(u, d);
    forall d | d in View(t) ensures View(t)[d] == View(u)[d] {
      assert Current(t, d) && Current(u, d);
    }
  }

  // ---------------------------------------------------------------------------------------------
  // The locked sections
  // ---------------------------------------------------------------------------------------------

  predicate Accepts(t: Table, id: SessionId)
    requires id in t.sessions
  {
    var s := t.sessions[id];
    && !t.closed
    && Latest(t.latest, s.device) <= s.revision
    && (s.device in t.connections && t.connections[s.device] in t.sessions ==>
          t.sessions[t.connections[s.device]].revision <= s.revision)
  }

  function Activated(t: Table, id: SessionId): Table
    requires id in t.sessions
  {
    if !Accepts(t, id) then t
    else
      var s := t.sessions[id];
      t.(connections := t.connections[s.device := id],
         sessions := t.sessions[id := s.(versionOk := Compatible(t.required, s.version),
                                         draining := t.upgradeDraining || s.device in t.intervention)],
         generation := t.generation + 1)
  }

  function LeaseRecorded(t: Table, d: Device, revision: nat): Table {
    var latest := if revision > Latest(t.latest, d) then t.latest[d := revision] else t.latest;
    if d in t.connections && t.connections[d] in t.sessions &&
       t.sessions[t.connections[d]].revision < Latest(latest, d)
    then t.(latest := latest, connections := t.connections - {d}, generation := t.generation + 1)
    else t.(latest := latest)
  }

  function Deactivated(t: Table, id: SessionId): Table {
    if !Listed(t, id) then t
    else t.(connections := t.connections - {t.sessions[id].device}, generation := t.generation + 1)
  }

  function SyncMarked(t: Table, id: SessionId): Table
    requires id in t.sessions
  {
    if t.sessions[id].syncReady then t
    else
      var marked := t.(sessions := t.sessions[id := t.sessions[id].(syncReady := true)]);
      if Listed(t, id) && Current(t, t.sessions[id].device)
      then marked.(generation := t.generation + 1) else marked
  }

  function ReadinessUpdated(t: Table, id: SessionId, ready: bool): Table
    requires id in t.sessions
  {
    if Listed(t, id) && Current(t, t.sessions[id].device) && t.sessions[id].workerReady != ready
    then t.(sessions := t.sessions[id := t.sessions[id].(workerReady := ready)], generation := t.generation + 1)
    else t
  }

  function WithDraining(t: Table, all: bool): map<SessionId, Session> {
    map id | id in t.sessions ::
      if Listed(t, id) then t.sessions[id].(draining := all || t.sessions[id].device in t.intervention)
      else t.sessions[id]
  }

  /** The locked half of BeginUpgradeDrain; the swap of `upgradeDraining` has already happened. */
  function DrainBegun(t: Table, changed: bool): Table {
    t.(sessions := WithDraining(t, true), generation := t.generation + (if changed then 1 else 0))
  }

  /** The locked half of EndUpgradeDrain. */
  function DrainEnded(t: Table, changed: bool): Table {
    t.(sessions := WithDraining(t, false), generation := t.generation + (if changed then 1 else 0))
  }

  function WithVersion(t: Table, version: string): map<SessionId, Session> {
    map id | id in t.sessions ::
      if Listed(t, id) then t.sessions[id].(versionOk := Compatible(version, t.sessions[id].version))
      else t.sessions[id]
  }

  function VersionRequired(t: Table, version: string): Table {
    if t.required == version then t
    else t.(required := version, sessions := WithVersion(t, version), generation := t.generation + 1)
  }

  function InterventionSet(t: Table, d: Device, required: bool): Table {
    var intervention := if required then t.intervention + {d} else t.intervention - {d};
    var sessions :=
      if Current(t, d)
      then t.sessions[t.connections[d] := CurrentSession(t, d).(draining := t.upgradeDraining || required)]
      else t.sessions;
    t.(intervention := intervention, sessions := sessions, generation := t.generation + 1)
  }

  // ---------------------------------------------------------------------------------------------
  // The object
  // ---------------------------------------------------------------------------------------------

  datatype ConnectionStatus = ConnectionStatus(
    generation: nat,
    connected: nat,
    syncReadyDevices: seq<Device>,
    workerReady: nat,
    dispatchable: nat)

  class Server {
    var connections: map<Device, SessionId>
    var sessions: map<SessionId, Session>
    var latest: map<Device, nat>
    var generation: nat
    var required: string
    var intervention: set<Device>
    var upgradeDraining: bool
    var closed: bool

    constructor ()
      ensures State() == Table(map[], map[], map[], 0, "", {}, false, false)
    {
      connections, sessions, latest, generation := map[], map[], map[], 0;
      required, intervention, upgradeDraining, closed := "", {}, false, false;
    }

    function State(): Table
      reads this
    {
      Table(connections, sessions, latest, generation, required, intervention, upgradeDraining, closed)
    }

    method Activate(id: SessionId) returns (previous: Option<SessionId>, active: bool)
      requires id in sessions && WellLinked(State())
      modifies this
      ensures State() == Activated(old(State()), id)
      ensures active <==> old(Accepts(State(), id))
      ensures old(!closed) ==>
                previous == if old(sessions)[id].device in old(connections)
                            then Some(old(connections)[old(sessions)[id].device]) else None
    {
      var session := sessions[id];
      previous, active := None, false;
      if closed { return; }
      if session.device in connections { previous := Some(connections[session.device]); }
      if Latest(latest, session.device) > session.revision { return; }
      if session.device in connections && sessions[connections[session.device]].revision > session.revision {
        return;
      }
      session := session.(versionOk := required == "" || session.version == required,
                          draining := upgradeDraining || session.device in intervention);
      connections, sessions, generation :=
        connections[session.device := id], sessions[id := session], generation + 1;
      active := true;
    }

    method RecordDeviceLease(device: Device, revision: nat)
      requires WellLinked(State())
      modifies this
      ensures State() == LeaseRecorded(old(State()), device, revision)
    {
      if revision > Latest(latest, device) {
        latest := latest[device := revision];
      }
      if device in connections && sessions[connections[device]].revision < Latest(latest, device) {
        connections := connections - {device};
        generation := generation + 1;
      }
    }

    method Deactivate(id: SessionId) returns (released: bool)
      requires id in sessions && WellLinked(State())
      modifies this
      ensures State() == Deactivated(old(State()), id)
      ensures released <==> old(Listed(State(), id))
    {
      var device := sessions[id].device;
      if device !in connections || connections[device] != id { return false; }
      connections := connections - {device};
      generation := generation + 1;
      released := true;
    }

    method MarkWorkerSyncReady(id: SessionId)
      requires id in sessions && WellLinked(State())
      modifies this
      ensures State() == SyncMarked(old(State()), id)
    {
      if !sessions[id].syncReady {
        var device := sessions[id].device;
        sessions := sessions[id := sessions[id].(syncReady := true)];
        if device in connections && connections[device] == id && sessions[id].revision >= Latest(latest, device) {
          generation := generation + 1;
        }
      }
    }

    method UpdateReadiness(id: SessionId, ready: bool)
      requires id in sessions && WellLinked(State())
      modifies this
      ensures State() == ReadinessUpdated(old(State()), id, ready)
    {
      var device := sessions[id].device;
      if device in connections && connections[device] == id && sessions[id].revision >= Latest(latest, device) {
        if sessions[id].workerReady != ready {
          sessions := sessions[id := sessions[id].(workerReady := ready)];
          generation := generation + 1;
        }
      }
    }

    /** Both sweeps: `all` is the drain being begun, otherwise only intervention devices stay draining. */
    static method SweepDraining(t: Table, all: bool) returns (swept: map<SessionId, Session>)
      requires WellLinked(t)
      ensures swept == WithDraining(t, all)
    {
      swept := t.sessions;
      var todo := t.connections.Keys;
      while todo != {}
        invariant todo <= t.connections.Keys && swept.Keys == t.sessions.Keys
        invariant forall id :: id in swept ==>
                    swept[id] == if Listed(t, id) && t.sessions[id].device !in todo
                                 then WithDraining(t, all)[id] else t.sessions[id]
      {
        var d :| d in todo;
        var id := t.connections[d];
        swept := swept[id := swept[id].(draining := all || d in t.intervention)];
        todo := todo - {d};
      }
    }

    method BeginDrainSweep(changed: bool)
      requires WellLinked(State())
      modifies this
      ensures State() == DrainBegun(old(State()), changed)
    {
      sessions := SweepDraining(State(), true);
      if changed { generation := generation + 1; }
    }

    method EndDrainSweep(changed: bool)
      requires WellLinked(State())
      modifies this
      ensures State() == DrainEnded(old(State()), changed)
    {
      sessions := SweepDraining(State(), false);
      if changed { generation := generation + 1; }
    }

    method RequireRuntimeVersion(version: string)
      requires WellLinked(State())
      modifies this
      ensures State() == VersionRequired(old(State()), version)
    {
      if required == version { return; }
      var swept := sessions;
      var todo := connections.Keys;
      ghost var t := State();
      while todo != {}
        invariant todo <= t.connections.Keys && swept.Keys == t.sessions.Keys
        invariant forall id :: id in swept ==>
                    swept[id] == if Listed(t, id) && t.sessions[id].device !in todo
                                 then WithVersion(t, version)[id] else t.sessions[id]
      {
        var d :| d in todo;
        var id := connections[d];
        swept := swept[id := swept[id].(versionOk := version == "" || swept[id].version == version)];
        todo := todo - {d};
      }
      assert swept == WithVersion(t, version);
      required := version;
      sessions := swept;
      generation := generation + 1;
    }

    method SetUpgradeIntervention(device: Device, needed: bool)
      requires WellLinked(State())
      modifies this
      ensures State() == InterventionSet(old(State()), device, needed)
    {
      if needed {
        intervention := intervention + {device};
      } else {
        intervention := intervention - {device};
      }
      if device in connections && sessions[connections[device]].revision >= Latest(latest, device) {
        var id := connections[device];
        sessions := sessions[id := sessions[id].(draining := upgradeDraining || needed)];
      }
      generation := generation + 1;
    }

    /** Counts are the sizes of the corresponding parts of the view, and each ready device is listed once. */
    method CaptureConnectionStatus() returns (status: ConnectionStatus)
      ensures status.generation == generation
      ensures status.connected == |View(State())|
      ensures status.workerReady == |WorkerReadyDevices(State())|
      ensures status.dispatchable == |DispatchableDevices(State())|
      ensures forall d :: d in status.syncReadyDevices <==> SyncReady(State(), d)
      ensures Distinct(status.syncReadyDevices)
    {
      status := CountConnections(State());
    }

    static method CountConnections(t: Table) returns (status: ConnectionStatus)
      ensures status.generation == t.generation
      ensures status.connected == |View(t)|
      ensures status.workerReady == |WorkerReadyDevices(t)|
      ensures status.dispatchable == |DispatchableDevices(t)|
      ensures forall d :: d in status.syncReadyDevices <==> SyncReady(t, d)
      ensures Distinct(status.syncReadyDevices)
    {
      var connected, workerReady, dispatchable := 0, 0, 0;
      var ready: seq<Device> := [];
      var todo := t.connections.Keys;
      NoneCounted(t);
      while todo != {}
        invariant todo <= t.connections.Keys
        invariant Counted(t, todo, connected, workerReady, dispatchable)
        invariant forall d :: d in ready <==> d in t.connections && d !in todo && SyncReady(t, d)
        invariant Distinct(ready)
      {
        var d :| d in todo;
        CountDevice(t, todo, d, connected, workerReady, dispatchable);
        DistinctSnoc(ready, d);
        todo := todo - {d};
        if Current(t, d) {
          connected := connected + 1;
          if SyncReady(t, d) { ready := ready + [d]; }
          if t.sessions[t.connections[d]].workerReady { workerReady := workerReady + 1; }
          if Dispatchable(t, d) { dispatchable := dispatchable + 1; }
        }
      }
      CountedAll(t, connected, workerReady, dispatchable);
      status := ConnectionStatus(t.generation, connected, ready, workerReady, dispatchable);
    }

    /** captureAgentConnections: the projection an agent listing is joined with. */
    method CaptureAgentConnections() returns (atGeneration: nat, targets: map<Device, Target>)
      ensures atGeneration == generation
      ensures targets == View(State())
    {
      atGeneration, targets := generation, map[];
      var todo := connections.Keys;
      while todo != {}
        invariant todo <= connections.Keys
        invariant targets == map d | d in connections && Current(State(), d) && d !in todo :: View(State())[d]
      {
        var d :| d in todo;
        todo := todo - {d};
        if Current(State(), d) {
          var s := sessions[connections[d]];
          targets := targets[d := Target(s.syncReady, s.workerReady,
                                         s.syncReady && s.workerReady && s.versionOk && !s.draining)];
        }
      }
    }
  }

  ghost predicate Distinct(devices: seq<Device>) {
    forall i, j :: 0 <= i < j < |devices| ==> devices[i] != devices[j]
  }

  lemma DistinctSnoc(devices: seq<Device>, d: Device)
    requires Distinct(devices) && d !in devices
    ensures Distinct(devices + [d])
    ensures forall x :: x in devices + [d] <==> x in devices || x == d
  {
  }

  /** The three counters describe the devices already visited. */
  ghost predicate Counted(t: Table, todo: set<Device>, connected: nat, workerReady: nat, dispatchable: nat) {
    && connected == |View(t).Keys - todo|
    && workerReady == |WorkerReadyDevices(t) - todo|
    && dispatchable == |DispatchableDevices(t) - todo|
  }

  /** Visiting one device changes a count by that device alone. */
  lemma CountOne(todo: set<Device>, x: Device, counted: set<Device>)
    requires x in todo
    ensures |counted - (todo - {x})| == |counted - todo| + (if x in counted then 1 else 0)
  {
    assert counted - (todo - {x}) == (counted - todo) + (if x in counted then {x} else {});
  }

  lemma CountDevice(t: Table, todo: set<Device>, d: Device, connected: nat, workerReady: nat, dispatchable: nat)
    requires d in todo && d in t.connections
    requires Counted(t, todo, connected, workerReady, dispatchable)
    ensures Counted(t, todo - {d},
                    connected + (if Current(t, d) then 1 else 0),
                    workerReady + (if WorkerReady(t, d) then 1 else 0),
                    dispatchable + (if Dispatchable(t, d) then 1 else 0))
  {
    CountOne(todo, d, View(t).Keys);
    CountOne(todo, d, WorkerReadyDevices(t));
    CountOne(todo, d, DispatchableDevices(t));
  }

  lemma CountedAll(t: Table, connected: nat, workerReady: nat, dispatchable: nat)
    requires Counted(t, {}, connected, workerReady, dispatchable)
    ensures connected == |View(t)|
    ensures workerReady == |WorkerReadyDevices(t)|
    ensures dispatchable == |DispatchableDevices(t)|
  {
    assert View(t).Keys - {} == View(t).Keys;
    assert WorkerReadyDevices(t) - {} == WorkerReadyDevices(t);
    assert DispatchableDevices(t) - {} == DispatchableDevices(t);
  }

  lemma NoneCounted(t: Table)
    ensures Counted(t, t.connections.Keys, 0, 0, 0)
  {
    assert View(t).Keys - t.connections.Keys == {};
    assert WorkerReadyDevices(t) - t.connections.Keys == {};
    assert DispatchableDevices(t) - t.connections.Keys == {};
  }
}
