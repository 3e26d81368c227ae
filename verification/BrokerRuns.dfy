/**
 Every interleaving of the broker's connection, lease, readiness and upgrade steps.

 A step is one locked section, one atomic store outside the lock, or one registry transaction. The
 registry is kept only as far as the callers rely on it: a lease revision is fresh when it is
 issued, and a heartbeat or an offline mark under a lease that is no longer stored is refused
 (internal/store/device.go).
 */
module BrokerRuns {
  import opened BrokerTable

  /** How far the handler of a connection has come. */
  datatype Phase = Registered | Recorded | Ready | Active | Ended

  /** The write side of `mutationMu`: free, or how far the drain call that holds it has come. */
  datatype Drain = Free | BeginHeld | BeginSwapped(changed: bool) | EndHeld | EndSwapped(changed: bool)

  datatype State = State(
    table: Table,
    counter: nat,
    lease: map<Device, nat>,
    online: set<Device>,
    phase: map<SessionId, Phase>,
    readers: set<nat>,
    admitted: set<nat>,
    drain: Drain)

  const START := State(Table(map[], map[], map[], 0, "", {}, false, false), 0, map[], {}, map[], {}, {}, Free)

  /** From a hello to a place in the table. */
  datatype JoinStep =
    | Register(id: SessionId, device: Device, version: string)
    | Record(id: SessionId)
    | Prepare(id: SessionId, syncReady: bool, workerReady: bool)
    | Activate(id: SessionId)

  /** A session that has been offered to the table, and the registry's own changes. */
  datatype LiveStep =
    | Heartbeat(id: SessionId)
    | MarkSync(id: SessionId)
    | Readiness(id: SessionId, ready: bool)
    | Deactivate(id: SessionId)
    | MarkOffline(id: SessionId)
    | Revoke(device: Device)

  /** Sections that touch the flags of the listed sessions, and the two other writers of the table. */
  datatype AdminStep =
    | RequireVersion(version: string)
    | Intervene(device: Device, required: bool)
    | BeginSweep
    | EndSweep
    | InstallStatusReader
    | Close

  /** The read/write fence around gated mutations. */
  datatype GateStep =
    | BeginLock
    | BeginSwap
    | EndLock
    | EndSwap
    | ReadLock(mutation: nat)
    | Check(mutation: nat)
    | ReadUnlock(mutation: nat)

  datatype Step = Join(join: JoinStep) | Live(live: LiveStep) | Admin(admin: AdminStep) | Gate(gate: GateStep)

  predicate At(s: State, id: SessionId, phase: Phase) {
    id in s.table.sessions && id in s.phase && s.phase[id] == phase
  }

  function Issue(s: State, d: Device, isOnline: bool): State {
    s.(counter := s.counter + 1, lease := s.lease[d := s.counter + 1],
       online := if isOnline then s.online + {d} else s.online - {d})
  }

  predicate HoldsLease(s: State, id: SessionId)
    requires id in s.table.sessions
  {
    var session := s.table.sessions[id];
    Latest(s.lease, session.device) == session.revision && session.device in s.online
  }

  function ApplyJoin(s: State, step: JoinStep): State {
    var t := s.table;
    match step
    case Register(id, device, version) =>
      if id in t.sessions then s
      else
        var issued := Issue(s, device, true);
        var session := Session(device, version, issued.counter, false, false, false, false);
        issued.(table := t.(sessions := t.sessions[id := session]), phase := s.phase[id := Registered])
    case Record(id) =>
      if !At(s, id, Registered) then s
      else
        s.(table := LeaseRecorded(t, t.sessions[id].device, t.sessions[id].revision), phase := s.phase[id := Recorded])
    case Prepare(id, syncReady, workerReady) =>
      if !At(s, id, Recorded) then s
      else
        var session := t.sessions[id].(syncReady := syncReady, workerReady := workerReady,
                                       versionOk := Compatible(t.required, t.sessions[id].version));
        s.(table := t.(sessions := t.sessions[id := session]), phase := s.phase[id := Ready])
    case Activate(id) =>
      if !At(s, id, Ready) then s
      else s.(table := Activated(t, id), phase := s.phase[id := if Accepts(t, id) then Active else Ended])
  }

  function ApplyLive(s: State, step: LiveStep): State {
    var t := s.table;
    match step
    case Heartbeat(id) =>
      if !At(s, id, Active) || !HoldsLease(s, id) then s
      else
        var session := t.sessions[id];
        s.(table := t.(sessions := t.sessions[id := session.(revision := Latest(s.lease, session.device))]))
    case MarkSync(id) =>
      if !At(s, id, Active) then s else s.(table := SyncMarked(t, id))
    case Readiness(id, ready) =>
      if !At(s, id, Active) then s else s.(table := ReadinessUpdated(t, id, ready))
    case Deactivate(id) =>
      if !At(s, id, Active) then s
      else s.(table := Deactivated(t, id), phase := s.phase[id := Ended])
    case MarkOffline(id) =>
      if !At(s, id, Ended) || !HoldsLease(s, id) then s else Issue(s, t.sessions[id].device, false)
    case Revoke(device) => Issue(s, device, false)
  }

  function ApplyAdmin(s: State, step: AdminStep): State {
    var t := s.table;
    match step
    case RequireVersion(version) => s.(table := VersionRequired(t, version))
    case Intervene(device, required) => s.(table := InterventionSet(t, device, required))
    case BeginSweep =>
      if !s.drain.BeginSwapped? then s else s.(table := DrainBegun(t, s.drain.changed), drain := Free)
    case EndSweep =>
      if !s.drain.EndSwapped? then s else s.(table := DrainEnded(t, s.drain.changed), drain := Free)
    case InstallStatusReader => s.(table := t.(generation := t.generation + 1))
    case Close => s.(table := t.(closed := true))
  }

  function ApplyGate(s: State, step: GateStep): State {
    var t := s.table;
    match step
    case BeginLock => if s.drain.Free? && s.readers == {} then s.(drain := BeginHeld) else s
    case BeginSwap =>
      if !s.drain.BeginHeld? then s
      else s.(table := t.(upgradeDraining := true), drain := BeginSwapped(!t.upgradeDraining))
    case EndLock => if s.drain.Free? && s.readers == {} then s.(drain := EndHeld) else s
    case EndSwap =>
      if !s.drain.EndHeld? then s
      else s.(table := t.(upgradeDraining := false), drain := EndSwapped(t.upgradeDraining))
    case ReadLock(m) => if s.drain.Free? && m !in s.readers then s.(readers := s.readers + {m}) else s
    case Check(m) =>
      if m !in s.readers || m in s.admitted then s
      else if t.upgradeDraining then s.(readers := s.readers - {m})
      else s.(admitted := s.admitted + {m})
    case ReadUnlock(m) =>
      if m !in s.admitted then s else s.(readers := s.readers - {m}, admitted := s.admitted - {m})
  }

  function Apply(s: State, step: Step): State {
    match step
    case Join(j) => ApplyJoin(s, j)
    case Live(e) => ApplyLive(s, e)
    case Admin(a) => ApplyAdmin(s, a)
    case Gate(g) => ApplyGate(s, g)
  }

  /** The state before each step of a run and the one after the last. */
  datatype Run = Run(states: seq<State>, steps: seq<Step>)

  ghost predicate IsRun(run: Run) {
    && |run.states| == |run.steps| + 1 && run.states[0] == START
    && forall k: nat :: k < |run.steps| ==> Follows(run, k)
  }

  ghost predicate Follows(run: Run, k: nat)
    requires k < |run.steps| < |run.states|
  {
    run.states[k + 1] == Apply(run.states[k], run.steps[k])
  }

  // ---------------------------------------------------------------------------------------------
  // The invariant
  // ---------------------------------------------------------------------------------------------

  ghost predicate SessionInv(s: State, id: SessionId) {
    id in s.table.sessions ==>
      var session := s.table.sessions[id];
      && id in s.phase
      && session.revision <= Latest(s.lease, session.device)
      && (!s.phase[id].Registered? ==> session.revision <= Latest(s.table.latest, session.device))
      && (s.phase[id].Active? && !Listed(s.table, id) ==> session.revision < Latest(s.table.latest, session.device))
  }

  ghost predicate ListedInv(s: State, d: Device) {
    d in s.table.connections ==>
      var id := s.table.connections[d];
      && At(s, id, Active)
      && s.table.sessions[id].device == d
      && s.table.sessions[id].revision == Latest(s.table.latest, d)
      && s.table.sessions[id].versionOk == Compatible(s.table.required, s.table.sessions[id].version)
  }

  ghost predicate LeaseInv(s: State, d: Device) {
    Latest(s.table.latest, d) <= Latest(s.lease, d) <= s.counter
  }

  ghost predicate DistinctLeases(s: State, a: SessionId, b: SessionId) {
    a in s.table.sessions && b in s.table.sessions && a != b ==>
      s.table.sessions[a].revision != s.table.sessions[b].revision
  }

  /** The listed session's draining flag is (global drain or intervention for its device). */
  ghost predicate FlagSettled(t: Table, d: Device) {
    d in t.connections && t.connections[d] in t.sessions ==>
      t.sessions[t.connections[d]].draining == (t.upgradeDraining || d in t.intervention)
  }

  ghost predicate DrainInv(s: State, d: Device) {
    match s.drain
    case BeginSwapped(changed) => s.table.upgradeDraining && (!changed ==> FlagSettled(s.table, d))
    case EndSwapped(changed) => !s.table.upgradeDraining && (!changed ==> FlagSettled(s.table, d))
    case _ => FlagSettled(s.table, d)
  }

  ghost predicate FenceInv(s: State) {
    && s.admitted <= s.readers
    && (!s.drain.Free? ==> s.readers == {})
    && (s.table.upgradeDraining ==> s.admitted == {})
  }

  ghost predicate Inv(s: State) {
    && (forall id :: SessionInv(s, id))
    && (forall d :: ListedInv(s, d))
    && (forall d :: LeaseInv(s, d))
    && (forall a, b :: DistinctLeases(s, a, b))
    && (forall d :: DrainInv(s, d))
    && FenceInv(s)
  }

  /** The clauses of the invariant about one session, a second one, and one device. */
  ghost predicate Local(s: State, x: SessionId, y: SessionId, d: Device) {
    SessionInv(s, x) && DistinctLeases(s, x, y) && ListedInv(s, d) && LeaseInv(s, d) && DrainInv(s, d)
  }

  /** What a step may do to a device's lease and to what the view says of it. */
  ghost predicate DeviceProgress(t: Table, u: Table, d: Device) {
    && t.generation <= u.generation
    && Latest(t.latest, d) <= Latest(u.latest, d)
    && (t.generation == u.generation ==>
          && Current(t, d) == Current(u, d)
          && SyncReady(t, d) == SyncReady(u, d)
          && WorkerReady(t, d) == WorkerReady(u, d)
          && Dispatchable(t, d) == Dispatchable(u, d))
  }

  /** A session keeps its lease and its device. */
  ghost predicate SameLease(t: Table, u: Table, x: SessionId) {
    x in t.sessions ==>
      && x in u.sessions
      && u.sessions[x].revision == t.sessions[x].revision
      && u.sessions[x].device == t.sessions[x].device
  }

  lemma Instances(s: State, x: SessionId, y: SessionId, d: Device)
    requires Inv(s)
    ensures Local(s, x, y, d)
    ensures x in s.table.sessions ==>
              ListedInv(s, s.table.sessions[x].device) && LeaseInv(s, s.table.sessions[x].device)
    ensures d in s.table.connections ==> DistinctLeases(s, x, s.table.connections[d])
  {
  }

  ghost predicate Kept(s: State, t: State, x: SessionId, y: SessionId, d: Device) {
    Local(t, x, y, d) && DeviceProgress(s.table, t.table, d) && SameLease(s.table, t.table, x)
  }

  lemma RecordKeepsSessions(s: State, id: SessionId, x: SessionId, y: SessionId)
    requires Inv(s)
    ensures var t := ApplyJoin(s, Record(id));
            SessionInv(t, x) && DistinctLeases(t, x, y) && SameLease(s.table, t.table, x)
  {
    Instances(s, x, y, 0);
    Instances(s, id, x, 0);
  }

  lemma RecordKeepsDevice(s: State, id: SessionId, d: Device)
    requires Inv(s)
    ensures var t := ApplyJoin(s, Record(id));
            ListedInv(t, d) && LeaseInv(t, d) && DrainInv(t, d) && DeviceProgress(s.table, t.table, d)
  {
    Instances(s, id, id, d);
  }

  lemma RecordKeeps(s: State, id: SessionId, x: SessionId, y: SessionId, d: Device)
    requires Inv(s)
    ensures Kept(s, ApplyJoin(s, Record(id)), x, y, d)
  {
    RecordKeepsSessions(s, id, x, y);
    RecordKeepsDevice(s, id, d);
  }

  lemma ActivateKeepsSessions(s: State, id: SessionId, x: SessionId, y: SessionId)
    requires Inv(s)
    ensures var t := ApplyJoin(s, Activate(id));
            SessionInv(t, x) && DistinctLeases(t, x, y) && SameLease(s.table, t.table, x)
  {
    Instances(s, x, y, 0);
    Instances(s, id, x, 0);
  }

  lemma ActivateKeepsDevice(s: State, id: SessionId, d: Device)
    requires Inv(s)
    ensures var t := ApplyJoin(s, Activate(id));
            ListedInv(t, d) && LeaseInv(t, d) && DrainInv(t, d) && DeviceProgress(s.table, t.table, d)
  {
    Instances(s, id, id, d);
  }

  lemma ActivateKeeps(s: State, id: SessionId, x: SessionId, y: SessionId, d: Device)
    requires Inv(s)
    ensures Kept(s, ApplyJoin(s, Activate(id)), x, y, d)
  {
    ActivateKeepsSessions(s, id, x, y);
    ActivateKeepsDevice(s, id, d);
  }

  lemma RegisterKeeps(s: State, step: JoinStep, x: SessionId, y: SessionId, d: Device)
    requires Inv(s) && step.Register?
    ensures Kept(s, ApplyJoin(s, step), x, y, d)
  {
    Instances(s, x, y, d);
    Instances(s, y, x, d);
    Instances(s, step.id, x, d);
  }

  lemma PrepareKeeps(s: State, step: JoinStep, x: SessionId, y: SessionId, d: Device)
    requires Inv(s) && step.Prepare?
    ensures Kept(s, ApplyJoin(s, step), x, y, d)
  {
    Instances(s, x, y, d);
    Instances(s, y, x, d);
    Instances(s, step.id, x, d);
  }

  lemma JoinKeeps(s: State, step: JoinStep, x: SessionId, y: SessionId, d: Device)
    requires Inv(s)
    ensures Kept(s, ApplyJoin(s, step), x, y, d)
  {
    match step
    case Record(id) => RecordKeeps(s, id, x, y, d);
    case Activate(id) => ActivateKeeps(s, id, x, y, d);
    case Register(_, _, _) => RegisterKeeps(s, step, x, y, d);
    case Prepare(_, _, _) => PrepareKeeps(s, step, x, y, d);
  }

  lemma HeartbeatKeeps(s: State, id: SessionId, x: SessionId, y: SessionId, d: Device)
    requires Inv(s)
    ensures Kept(s, ApplyLive(s, Heartbeat(id)), x, y, d)
  {
    Instances(s, x, y, d);
  }

  lemma MarkSyncKeepsSessions(s: State, id: SessionId, x: SessionId, y: SessionId)
    requires Inv(s)
    ensures var t := ApplyLive(s, MarkSync(id));
            SessionInv(t, x) && DistinctLeases(t, x, y) && SameLease(s.table, t.table, x)
  {
    Instances(s, x, y, 0);
    Instances(s, id, x, 0);
  }

  lemma MarkSyncKeepsDevice(s: State, id: SessionId, d: Device)
    requires Inv(s)
    ensures var t := ApplyLive(s, MarkSync(id));
            ListedInv(t, d) && LeaseInv(t, d) && DrainInv(t, d) && DeviceProgress(s.table, t.table, d)
  {
    Instances(s, id, id, d);
  }

  lemma MarkSyncKeeps(s: State, id: SessionId, x: SessionId, y: SessionId, d: Device)
    requires Inv(s)
    ensures Kept(s, ApplyLive(s, MarkSync(id)), x, y, d)
  {
    MarkSyncKeepsSessions(s, id, x, y);
    MarkSyncKeepsDevice(s, id, d);
  }

  lemma ReadinessKeeps(s: State, id: SessionId, ready: bool, x: SessionId, y: SessionId, d: Device)
    requires Inv(s)
    ensures Kept(s, ApplyLive(s, Readiness(id, ready)), x, y, d)
  {
    Instances(s, x, y, d);
  }

  lemma DeactivateKeeps(s: State, id: SessionId, x: SessionId, y: SessionId, d: Device)
    requires Inv(s)
    ensures Kept(s, ApplyLive(s, Deactivate(id)), x, y, d)
  {
    Instances(s, x, y, d);
  }

  lemma LiveKeeps(s: State, step: LiveStep, x: SessionId, y: SessionId, d: Device)
    requires Inv(s)
    ensures Kept(s, ApplyLive(s, step), x, y, d)
  {
    match step
    case Heartbeat(id) => HeartbeatKeeps(s, id, x, y, d);
    case MarkSync(id) => MarkSyncKeeps(s, id, x, y, d);
    case Readiness(id, ready) => ReadinessKeeps(s, id, ready, x, y, d);
    case Deactivate(id) => DeactivateKeeps(s, id, x, y, d);
    case _ => Instances(s, x, y, d);
  }

  lemma SweepKeeps(s: State, step: AdminStep, x: SessionId, y: SessionId, d: Device)
    requires Inv(s) && (step.BeginSweep? || step.EndSweep?)
    ensures Kept(s, ApplyAdmin(s, step), x, y, d)
  {
    Instances(s, x, y, d);
  }

  lemma VersionKeeps(s: State, version: string, x: SessionId, y: SessionId, d: Device)
    requires Inv(s)
    ensures Kept(s, ApplyAdmin(s, RequireVersion(version)), x, y, d)
  {
    Instances(s, x, y, d);
  }

  lemma AdminKeeps(s: State, step: AdminStep, x: SessionId, y: SessionId, d: Device)
    requires Inv(s)
    ensures Kept(s, ApplyAdmin(s, step), x, y, d)
  {
    match step
    case BeginSweep => SweepKeeps(s, step, x, y, d);
    case EndSweep => SweepKeeps(s, step, x, y, d);
    case RequireVersion(version) => VersionKeeps(s, version, x, y, d);
    case Intervene(device, required) =>
      Instances(s, x, y, d);
      assert ListedInv(s, device);
    case _ => Instances(s, x, y, d);
  }

  lemma GateKeeps(s: State, step: GateStep, x: SessionId, y: SessionId, d: Device)
    requires Inv(s)
    ensures Kept(s, ApplyGate(s, step), x, y, d)
  {
    if step.BeginSwap? || step.EndSwap? {
      SwapKeeps(s, step, x, y, d);
    } else {
      Instances(s, x, y, d);
    }
  }

  lemma SwapKeeps(s: State, step: GateStep, x: SessionId, y: SessionId, d: Device)
    requires Inv(s) && (step.BeginSwap? || step.EndSwap?)
    ensures Kept(s, ApplyGate(s, step), x, y, d)
  {
    Instances(s, x, y, d);
  }

  lemma GateKeepsFence(s: State, step: GateStep)
    requires FenceInv(s)
    ensures FenceInv(ApplyGate(s, step))
  {
  }

  /** Sessions come, go and report without touching the fence. */
  ghost predicate SameFence(s: State, t: State) {
    && t.drain == s.drain && t.readers == s.readers && t.admitted == s.admitted
    && t.table.upgradeDraining == s.table.upgradeDraining
  }

  lemma JoinLeavesFence(s: State, step: JoinStep)
    ensures SameFence(s, ApplyJoin(s, step))
  {
  }

  lemma LiveLeavesFence(s: State, step: LiveStep)
    ensures SameFence(s, ApplyLive(s, step))
  {
  }

  lemma AdminKeepsFence(s: State, step: AdminStep)
    requires FenceInv(s)
    ensures FenceInv(ApplyAdmin(s, step))
  {
  }

  lemma FenceKept(s: State, step: Step)
    requires FenceInv(s)
    ensures FenceInv(Apply(s, step))
  {
    match step
    case Join(j) => JoinLeavesFence(s, j);
    case Live(e) => LiveLeavesFence(s, e);
    case Admin(a) => AdminKeepsFence(s, a);
    case Gate(g) => GateKeepsFence(s, g);
  }

  lemma StepKeeps(s: State, step: Step, x: SessionId, y: SessionId, d: Device)
    requires Inv(s)
    ensures Kept(s, Apply(s, step), x, y, d)
  {
    match step
    case Join(j) => JoinKeeps(s, j, x, y, d);
    case Live(e) => LiveKeeps(s, e, x, y, d);
    case Admin(a) => AdminKeeps(s, a, x, y, d);
    case Gate(g) => GateKeeps(s, g, x, y, d);
  }

  lemma StepKeepsInv(s: State, step: Step)
    requires Inv(s)
    ensures Inv(Apply(s, step))
  {
    var t := Apply(s, step);
    FenceKept(s, step);
    forall x ensures SessionInv(t, x) { StepKeeps(s, step, x, x, 0); }
    forall x, y ensures DistinctLeases(t, x, y) { StepKeeps(s, step, x, y, 0); }
    forall d ensures ListedInv(t, d) && LeaseInv(t, d) && DrainInv(t, d) { StepKeeps(s, step, 0, 0, d); }
  }

  lemma {:induction false} RunKeepsInv(run: Run, k: nat)
    requires IsRun(run) && k <= |run.steps|
    ensures Inv(run.states[k])
  {
    if k > 0 {
      RunKeepsInv(run, k - 1);
      assert Follows(run, k - 1);
      StepKeepsInv(run.states[k - 1], run.steps[k - 1]);
    }
  }

  // ---------------------------------------------------------------------------------------------
  // Generation-checked snapshots
  // ---------------------------------------------------------------------------------------------

  /** Every step that changes the view moves the generation, and none moves it back. */
  lemma ViewChangesMoveGeneration(s: State, step: Step)
    requires Inv(s)
    ensures var t := Apply(s, step);
            && s.table.generation <= t.table.generation
            && (View(s.table) != View(t.table) ==> s.table.generation < t.table.generation)
  {
    var t := Apply(s, step);
    forall d ensures DeviceProgress(s.table, t.table, d) { StepKeeps(s, step, 0, 0, d); }
    assert DeviceProgress(s.table, t.table, 0);
    if s.table.generation == t.table.generation {
      forall d
        ensures && Current(s.table, d) == Current(t.table, d)
                && SyncReady(s.table, d) == SyncReady(t.table, d)
                && WorkerReady(s.table, d) == WorkerReady(t.table, d)
                && Dispatchable(s.table, d) == Dispatchable(t.table, d)
      {
        assert DeviceProgress(s.table, t.table, d);
      }
      SameView(s.table, t.table);
    }
  }

  function GenerationAt(run: Run, k: nat): nat
    requires IsRun(run) && k <= |run.steps|
  {
    run.states[k].table.generation
  }

  function ViewAt(run: Run, k: nat): map<Device, Target>
    requires IsRun(run) && k <= |run.steps|
  {
    View(run.states[k].table)
  }

  lemma NextView(run: Run, k: nat)
    requires IsRun(run) && k < |run.steps|
    ensures GenerationAt(run, k) <= GenerationAt(run, k + 1)
    ensures GenerationAt(run, k) == GenerationAt(run, k + 1) ==> ViewAt(run, k) == ViewAt(run, k + 1)
  {
    RunKeepsInv(run, k);
    assert Follows(run, k);
    ViewChangesMoveGeneration(run.states[k], run.steps[k]);
  }

  lemma {:induction false} GenerationMonotone(run: Run, i: nat, j: nat)
    requires IsRun(run) && i <= j <= |run.steps|
    ensures GenerationAt(run, i) <= GenerationAt(run, j)
    decreases j
  {
    if i < j {
      GenerationMonotone(run, i, j - 1);
      NextView(run, j - 1);
    }
  }

  /**
   A reader that sees the same generation at times `i` and `j` of any run has a view that held at
   every moment between them.
   */
  lemma {:induction false} StableView(run: Run, i: nat, k: nat, j: nat)
    requires IsRun(run) && i <= k <= j <= |run.steps|
    requires GenerationAt(run, i) == GenerationAt(run, j)
    ensures ViewAt(run, k) == ViewAt(run, i)
    decreases k
  {
    if i < k {
      GenerationMonotone(run, i, k - 1);
      NextView(run, k - 1);
      GenerationMonotone(run, k, j);
      StableView(run, i, k - 1, j);
    }
  }

  // ---------------------------------------------------------------------------------------------
  // Leases
  // ---------------------------------------------------------------------------------------------

  /** A newer lease has been recorded for this session's device. */
  ghost predicate Superseded(s: State, id: SessionId) {
    id in s.table.sessions &&
    s.table.sessions[id].revision < Latest(s.table.latest, s.table.sessions[id].device)
  }

  /**
   In every reachable state the listed session of a device holds exactly the newest recorded lease,
   so the staleness test of currentConnectionLocked never rejects a listed session; and a running
   session that is not listed has been superseded.
   */
  lemma ListedHoldsNewestLease(run: Run, k: nat, d: Device, id: SessionId)
    requires IsRun(run) && k <= |run.steps|
    ensures var t := run.states[k].table;
            && (d in t.connections ==>
                  && Current(t, d)
                  && CurrentSession(t, d).device == d
                  && CurrentSession(t, d).revision == Latest(t.latest, d))
            && (At(run.states[k], id, Active) ==> Listed(t, id) || Superseded(run.states[k], id))
  {
    RunKeepsInv(run, k);
    Instances(run.states[k], id, id, d);
  }

  /** An activation that succeeds never displaces a listed session: recording the lease already removed it. */
  lemma ActivationFindsNoPrevious(run: Run, k: nat, id: SessionId)
    requires IsRun(run) && k <= |run.steps|
    requires At(run.states[k], id, Ready) && Accepts(run.states[k].table, id)
    ensures run.states[k].table.sessions[id].device !in run.states[k].table.connections
  {
    var s := run.states[k];
    RunKeepsInv(run, k);
    Instances(s, id, id, s.table.sessions[id].device);
  }

  /**
   A session that is ready to be listed gets in exactly when the broker is open and no newer lease of its
   device is recorded; drains, versions and readiness have no say in it.
   */
  lemma ActivationExactly(run: Run, k: nat, id: SessionId)
    requires IsRun(run) && k <= |run.steps| && At(run.states[k], id, Ready)
    ensures Listed(Apply(run.states[k], Join(Activate(id))).table, id) <==>
              !run.states[k].table.closed && !Superseded(run.states[k], id)
  {
    var s := run.states[k];
    RunKeepsInv(run, k);
    Instances(s, id, id, s.table.sessions[id].device);
  }

  // ---------------------------------------------------------------------------------------------
  // What each step does, as a reader of the table sees it
  // ---------------------------------------------------------------------------------------------

  /** Nothing is changed of a session. */
  ghost predicate SameSession(t: Table, u: Table, x: SessionId) {
    (x in u.sessions <==> x in t.sessions) && (x in t.sessions ==> u.sessions[x] == t.sessions[x])
  }

  ghost predicate SamePlace(t: Table, u: Table, d: Device) {
    && (d in u.connections <==> d in t.connections) && (d in t.connections ==> u.connections[d] == t.connections[d])
    && Latest(u.latest, d) == Latest(t.latest, d)
  }

  /** A step of one session leaves every other session and every other device as they are. */
  lemma JoinIsLocal(s: State, step: JoinStep, x: SessionId, d: Device)
    requires Inv(s) && x != step.id
    ensures SameSession(s.table, ApplyJoin(s, step).table, x)
    ensures step.id in s.table.sessions && d != s.table.sessions[step.id].device ==>
              SamePlace(s.table, ApplyJoin(s, step).table, d)
  {
  }

  lemma LiveIsLocal(s: State, step: LiveStep, x: SessionId, d: Device)
    requires Inv(s) && !step.Revoke? && x != step.id
    ensures SameSession(s.table, ApplyLive(s, step).table, x)
    ensures step.id in s.table.sessions && d != s.table.sessions[step.id].device ==>
              SamePlace(s.table, ApplyLive(s, step).table, d)
  {
  }

  /** A registration issues a lease newer than any before; recording it drops whoever held an older one. */
  lemma LeaseTakes(s: State, id: SessionId, device: Device, version: string)
    requires Inv(s) && id !in s.table.sessions
    ensures var n := Apply(s, Join(Register(id, device, version)));
            && At(n, id, Registered) && n.table.sessions[id].device == device && n.table.sessions[id].version == version
            && HoldsLease(n, id) && Latest(s.lease, device) < n.table.sessions[id].revision
            && var r := Apply(n, Join(Record(id)));
               && At(r, id, Recorded) && Latest(r.table.latest, device) == n.table.sessions[id].revision
               && device !in r.table.connections && !Superseded(r, id)
  {
    Instances(s, id, id, device);
  }

  /** What a hello said of readiness is what the session starts with. */
  lemma PreparedAsSaid(s: State, id: SessionId, syncReady: bool, workerReady: bool)
    requires Inv(s) && At(s, id, Recorded)
    ensures var n := Apply(s, Join(Prepare(id, syncReady, workerReady)));
            && At(n, id, Ready) && n.table.sessions[id].syncReady == syncReady
            && n.table.sessions[id].workerReady == workerReady
  {
  }

  /** What a session that has not been superseded reports is what the view then says of its device. */
  lemma ReportsTake(s: State, id: SessionId, ready: bool)
    requires Inv(s) && At(s, id, Active) && !Superseded(s, id)
    ensures var d := s.table.sessions[id].device;
            && SyncReady(Apply(s, Live(MarkSync(id))).table, d)
            && WorkerReady(Apply(s, Live(MarkSync(id))).table, d) == WorkerReady(s.table, d)
            && WorkerReady(Apply(s, Live(Readiness(id, ready))).table, d) == ready
            && SyncReady(Apply(s, Live(Readiness(id, ready))).table, d) == SyncReady(s.table, d)
  {
    Instances(s, id, id, s.table.sessions[id].device);
  }

  /** A session that ends is over, and its device's place is free if it had it. */
  lemma EndingTakes(s: State, id: SessionId)
    requires Inv(s) && At(s, id, Active)
    ensures var n, d := Apply(s, Live(Deactivate(id))), s.table.sessions[id].device;
            && At(n, id, Ended)
            && (d in n.table.connections <==> d in s.table.connections && Superseded(s, id))
            && var m := Apply(n, Live(MarkOffline(id)));
               if HoldsLease(s, id) then d !in m.online && Latest(m.lease, d) > Latest(s.lease, d) else m == n
  {
    Instances(s, id, id, s.table.sessions[id].device);
  }

  /** A revocation takes the device off the registry under a lease nobody holds, and leaves the table alone. */
  lemma RevocationTakes(s: State, d: Device, id: SessionId)
    requires Inv(s)
    ensures var n := Apply(s, Live(Revoke(d)));
            && d !in n.online && Latest(n.lease, d) > Latest(s.lease, d) && n.table == s.table
            && (id in s.table.sessions && s.table.sessions[id].device == d ==> !HoldsLease(n, id))
  {
    Instances(s, id, id, d);
  }

  /** An intervention and a required version stand as they were asked for, and dispatch follows them. */
  lemma AdminTakes(s: State, d: Device, required: bool, version: string)
    requires Inv(s)
    ensures var n := Apply(s, Admin(Intervene(d, required)));
            && (forall e :: e in n.table.intervention <==> if e == d then required else e in s.table.intervention)
            && (required ==> !Dispatchable(n.table, d))
            && n.table.required == s.table.required
    ensures var n := Apply(s, Admin(RequireVersion(version)));
            && n.table.required == version && n.table.intervention == s.table.intervention
            && (Current(n.table, d) ==>
                 (CurrentSession(n.table, d).versionOk <==>
                   version == "" || CurrentSession(n.table, d).version == version))
  {
    Instances(s, 0, 0, d);
    VersionKeeps(s, version, 0, 0, d);
    AdminKeeps(s, Intervene(d, required), 0, 0, d);
  }

  ghost predicate NobodyNew(t: Table, u: Table, d: Device) {
    u.closed && (d in u.connections ==> d in t.connections && u.connections[d] == t.connections[d])
  }

  lemma ClosedJoin(s: State, step: JoinStep, d: Device)
    requires s.table.closed
    ensures NobodyNew(s.table, ApplyJoin(s, step).table, d)
  {
  }

  lemma ClosedLive(s: State, step: LiveStep, d: Device)
    requires s.table.closed
    ensures NobodyNew(s.table, ApplyLive(s, step).table, d)
  {
  }

  lemma ClosedAdmin(s: State, step: AdminStep, d: Device)
    requires s.table.closed
    ensures NobodyNew(s.table, ApplyAdmin(s, step).table, d)
  {
  }

  lemma ClosedGate(s: State, step: GateStep, d: Device)
    requires s.table.closed
    ensures NobodyNew(s.table, ApplyGate(s, step).table, d)
  {
  }

  lemma ClosedStep(s: State, step: Step, d: Device)
    requires s.table.closed
    ensures NobodyNew(s.table, Apply(s, step).table, d)
  {
    match step
    case Join(j) => ClosedJoin(s, j, d);
    case Live(e) => ClosedLive(s, e, d);
    case Admin(a) => ClosedAdmin(s, a, d);
    case Gate(g) => ClosedGate(s, g, d);
  }

  /** Once closed, always closed, and no session is listed that was not. */
  lemma {:induction false} ClosedForGood(run: Run, i: nat, j: nat, d: Device)
    requires IsRun(run) && i <= j <= |run.steps| && run.states[i].table.closed
    ensures NobodyNew(run.states[i].table, run.states[j].table, d)
    decreases j
  {
    if i < j {
      ClosedForGood(run, i, j - 1, d);
      assert Follows(run, j - 1);
      ClosedStep(run.states[j - 1], run.steps[j - 1], d);
    }
  }

  lemma CloseTakes(s: State)
    ensures Apply(s, Admin(Close)).table.closed
  {
  }

  /** When the generation moves: exactly when the step may have changed what a reader sees, and by one. */
  ghost predicate Moves(s: State, step: Step) {
    match step
    case Join(j) => JoinMoves(s, j)
    case Live(e) => LiveMoves(s, e)
    case Admin(a) => AdminMoves(s, a)
    case Gate(_) => false
  }

  ghost predicate JoinMoves(s: State, step: JoinStep) {
    var t := s.table;
    match step
    case Record(id) =>
      && At(s, id, Registered) && Current(t, t.sessions[id].device)
      && CurrentSession(t, t.sessions[id].device).revision < t.sessions[id].revision
    case Activate(id) => At(s, id, Ready) && !t.closed && !Superseded(s, id)
    case _ => false
  }

  ghost predicate LiveMoves(s: State, step: LiveStep) {
    var t := s.table;
    match step
    case MarkSync(id) => At(s, id, Active) && !Superseded(s, id) && !t.sessions[id].syncReady
    case Readiness(id, ready) => At(s, id, Active) && !Superseded(s, id) && t.sessions[id].workerReady != ready
    case Deactivate(id) => At(s, id, Active) && !Superseded(s, id)
    case _ => false
  }

  ghost predicate AdminMoves(s: State, step: AdminStep) {
    match step
    case RequireVersion(version) => version != s.table.required
    case BeginSweep => s.drain.BeginSwapped? && s.drain.changed
    case EndSweep => s.drain.EndSwapped? && s.drain.changed
    case Close => false
    case _ => true
  }

  lemma JoinMovesExactly(s: State, step: JoinStep)
    requires Inv(s)
    ensures ApplyJoin(s, step).table.generation == s.table.generation + (if JoinMoves(s, step) then 1 else 0)
  {
    if step.id in s.table.sessions { Instances(s, step.id, step.id, s.table.sessions[step.id].device); }
  }

  lemma LiveMovesExactly(s: State, step: LiveStep)
    requires Inv(s)
    ensures ApplyLive(s, step).table.generation == s.table.generation + (if LiveMoves(s, step) then 1 else 0)
  {
    if !step.Revoke? && step.id in s.table.sessions {
      Instances(s, step.id, step.id, s.table.sessions[step.id].device);
    }
  }

  lemma SweepMovesExactly(t: Table, changed: bool)
    ensures DrainBegun(t, changed).generation == t.generation + (if changed then 1 else 0)
    ensures DrainEnded(t, changed).generation == t.generation + (if changed then 1 else 0)
  {
  }

  lemma VersionMovesExactly(t: Table, version: string)
    ensures VersionRequired(t, version).generation == t.generation + (if version != t.required then 1 else 0)
  {
  }

  lemma InterventionMoves(t: Table, d: Device, required: bool)
    ensures InterventionSet(t, d, required).generation == t.generation + 1
  {
  }

  lemma AdminMovesExactly(s: State, step: AdminStep)
    ensures ApplyAdmin(s, step).table.generation == s.table.generation + (if AdminMoves(s, step) then 1 else 0)
  {
    match step
    case RequireVersion(version) => VersionMovesExactly(s.table, version);
    case Intervene(d, required) => InterventionMoves(s.table, d, required);
    case BeginSweep => if s.drain.BeginSwapped? { SweepMovesExactly(s.table, s.drain.changed); }
    case EndSweep => if s.drain.EndSwapped? { SweepMovesExactly(s.table, s.drain.changed); }
    case _ =>
  }

  lemma GateMovesNothing(s: State, step: GateStep)
    ensures ApplyGate(s, step).table.generation == s.table.generation
  {
  }

  lemma GenerationMovesExactly(s: State, step: Step)
    requires Inv(s)
    ensures Apply(s, step).table.generation == s.table.generation + (if Moves(s, step) then 1 else 0)
  {
    match step
    case Join(j) => JoinMovesExactly(s, j);
    case Live(e) => LiveMovesExactly(s, e);
    case Admin(a) => AdminMovesExactly(s, a);
    case Gate(g) => GateMovesNothing(s, g);
  }

  // ---------------------------------------------------------------------------------------------
  // Leases over a run
  // ---------------------------------------------------------------------------------------------

  /** What one step of a run does to a session's lease and to its device's. */
  lemma RunProgress(run: Run, k: nat, id: SessionId, d: Device)
    requires IsRun(run) && k < |run.steps|
    ensures DeviceProgress(run.states[k].table, run.states[k + 1].table, d)
    ensures SameLease(run.states[k].table, run.states[k + 1].table, id)
  {
    RunKeepsInv(run, k);
    StepKeeps(run.states[k], run.steps[k], id, id, d);
    assert Follows(run, k);
  }

  lemma SupersededIsInert(s: State, id: SessionId)
    requires Inv(s) && Superseded(s, id)
    ensures !Listed(s.table, id)
    ensures Apply(s, Live(Deactivate(id))).table == s.table
    ensures Apply(s, Live(MarkOffline(id))) == s
  {
    Instances(s, id, id, s.table.sessions[id].device);
  }

  lemma {:induction false} StaysSuperseded(run: Run, i: nat, j: nat, id: SessionId)
    requires IsRun(run) && i <= j <= |run.steps| && Superseded(run.states[i], id)
    ensures Superseded(run.states[j], id)
    decreases j
  {
    if i < j {
      StaysSuperseded(run, i, j - 1, id);
      RunProgress(run, j - 1, id, run.states[j - 1].table.sessions[id].device);
    }
  }

  /**
   Once superseded, always superseded: the session is never listed or dispatchable again, its
   deactivation leaves the table alone, and its offline mark leaves the registry alone.
   */
  lemma SupersededForever(run: Run, i: nat, j: nat, id: SessionId)
    requires IsRun(run) && i <= j <= |run.steps| && Superseded(run.states[i], id)
    ensures var s := run.states[j];
            && Superseded(s, id)
            && !Listed(s.table, id)
            && Apply(s, Live(Deactivate(id))).table == s.table
            && Apply(s, Live(MarkOffline(id))) == s
  {
    StaysSuperseded(run, i, j, id);
    RunKeepsInv(run, j);
    SupersededIsInert(run.states[j], id);
  }

  // ---------------------------------------------------------------------------------------------
  // The drain fence and the draining flags
  // ---------------------------------------------------------------------------------------------

  /** Outside the two-part drain calls, dispatch is gated by exactly these conditions. */
  lemma DispatchableExactly(run: Run, k: nat, d: Device)
    requires IsRun(run) && k <= |run.steps| && !run.states[k].drain.BeginSwapped? && !run.states[k].drain.EndSwapped?
    ensures var t := run.states[k].table;
            Dispatchable(t, d) <==>
            && Current(t, d)
            && CurrentSession(t, d).syncReady && CurrentSession(t, d).workerReady
            && (t.required == "" || CurrentSession(t, d).version == t.required)
            && !t.upgradeDraining && d !in t.intervention
  {
    RunKeepsInv(run, k);
    Instances(run.states[k], 0, 0, d);
  }

  /** Whatever activations fell between a drain call's swap and its sweep, the flags are right once it returns. */
  lemma FlagsRightAfterEachCall(run: Run, k: nat, d: Device)
    requires IsRun(run) && k <= |run.steps| && run.states[k].drain.Free?
    requires d in run.states[k].table.connections
    ensures var t := run.states[k].table;
            Current(t, d) && CurrentSession(t, d).draining == (t.upgradeDraining || d in t.intervention)
  {
    RunKeepsInv(run, k);
    Instances(run.states[k], 0, 0, d);
  }

  /** A drain has begun and no call that ends one holds the fence. */
  ghost predicate Fenced(s: State) {
    s.table.upgradeDraining && !s.drain.EndHeld? && !s.drain.EndSwapped?
  }

  lemma FencedByBegin(s: State)
    requires DrainInv(s, 0) && s.drain.BeginSwapped?
    ensures Fenced(ApplyAdmin(s, BeginSweep))
  {
  }

  lemma AdminHoldsFence(s: State, step: AdminStep)
    requires Fenced(s)
    ensures Fenced(ApplyAdmin(s, step))
  {
  }

  lemma GateHoldsFence(s: State, step: GateStep)
    requires Fenced(s) && step != EndLock
    ensures Fenced(ApplyGate(s, step))
  {
  }

  lemma FenceStep(s: State, step: Step)
    requires Fenced(s) && step != Gate(EndLock)
    ensures Fenced(Apply(s, step))
  {
    match step
    case Join(j) => JoinLeavesFence(s, j);
    case Live(e) => LiveLeavesFence(s, e);
    case Admin(a) => AdminHoldsFence(s, a);
    case Gate(g) => GateHoldsFence(s, g);
  }

  lemma {:induction false} FencedUntilEnd(run: Run, i: nat, j: nat)
    requires IsRun(run) && i < j <= |run.steps|
    requires run.states[i].drain.BeginSwapped? && run.steps[i] == Admin(BeginSweep)
    requires forall k :: i < k < j ==> run.steps[k] != Gate(EndLock)
    ensures Fenced(run.states[j])
    decreases j
  {
    assert Follows(run, j - 1);
    if i + 1 < j {
      FencedUntilEnd(run, i, j - 1);
      FenceStep(run.states[j - 1], run.steps[j - 1]);
    } else {
      RunKeepsInv(run, i);
      FencedByBegin(run.states[i]);
    }
  }

  lemma NobodyAdmitted(s: State, m: nat)
    requires FenceInv(s) && Fenced(s)
    ensures s.admitted == {} && ApplyGate(s, Check(m)).admitted == {}
  {
  }

  /**
   From the step in which BeginUpgradeDrain returns until some EndUpgradeDrain takes the fence, no
   mutation holds admission and none can obtain it.
   */
  lemma DrainFence(run: Run, i: nat, j: nat, m: nat)
    requires IsRun(run) && i < j <= |run.steps|
    requires run.states[i].drain.BeginSwapped? && run.steps[i] == Admin(BeginSweep)
    requires forall k :: i < k < j ==> run.steps[k] != Gate(EndLock)
    ensures run.states[j].admitted == {} && ApplyGate(run.states[j], Check(m)).admitted == {}
  {
    FencedUntilEnd(run, i, j);
    RunKeepsInv(run, j);
    NobodyAdmitted(run.states[j], m);
  }

  /** Outside a drain call a mutation gets its turn, and is admitted exactly unless a drain is on. */
  lemma MutationsGetThrough(s: State, m: nat)
    requires FenceInv(s) && s.drain.Free? && m !in s.readers
    ensures m in Apply(Apply(s, Gate(ReadLock(m))), Gate(Check(m))).admitted <==> !s.table.upgradeDraining
    ensures m !in Apply(Apply(Apply(s, Gate(ReadLock(m))), Gate(Check(m))), Gate(ReadUnlock(m))).readers
    ensures Apply(s, Gate(ReadUnlock(m))) == s
  {
  }

  /** A drain call gets its turn exactly with no mutation under way; then the drain is on, or off, as asked for. */
  lemma DrainsGetThrough(s: State)
    requires s.drain.Free?
    ensures s.readers == {} ==>
              var b := Apply(Apply(Apply(s, Gate(BeginLock)), Gate(BeginSwap)), Admin(BeginSweep));
              b.table.upgradeDraining && b.drain.Free?
    ensures s.readers == {} ==>
              var e := Apply(Apply(Apply(s, Gate(EndLock)), Gate(EndSwap)), Admin(EndSweep));
              !e.table.upgradeDraining && e.drain.Free?
    ensures s.readers != {} ==> Apply(s, Gate(BeginLock)) == s == Apply(s, Gate(EndLock))
  {
  }
}
