/**
 The two optimistic readers of the connection table: `Status` (internal/broker/status.go) and
 `listAgentStates` (internal/broker/agent_projection.go).

 Each captures the view under the lock, reads durable state without it, and answers only if the
 generation has not moved; after three tries it gives up. The readers run against an arbitrary run
 of the broker: an attempt says at which moments of that run it captured and re-checked.
 */
module StatusSnapshot {
  import opened BrokerTable
  import opened BrokerRuns

  const MAXIMUM_SNAPSHOT_ATTEMPTS := 3

  /** Moments of the run at which one try captures and re-checks, and what happens in between. */
  datatype Attempt = Attempt(capture: nat, check: nat, readFails: bool, cancelled: bool)

  ghost predicate Scheduled(run: Run, attempts: seq<Attempt>) {
    && IsRun(run) && |attempts| == MAXIMUM_SNAPSHOT_ATTEMPTS
    && (forall k :: 0 <= k < |attempts| ==> attempts[k].capture <= attempts[k].check <= |run.steps|)
    && (forall k :: 0 < k < |attempts| ==> attempts[k - 1].check <= attempts[k].capture)
  }

  predicate Moved(run: Run, a: Attempt)
    requires IsRun(run) && a.capture <= a.check <= |run.steps|
  {
    GenerationAt(run, a.capture) != GenerationAt(run, a.check)
  }

  /** This try neither answered nor failed. */
  predicate Retried(run: Run, a: Attempt)
    requires IsRun(run) && a.capture <= a.check <= |run.steps|
  {
    !a.readFails && Moved(run, a) && !a.cancelled
  }

  /** The view was `view` at every moment from capture to check. */
  ghost predicate HeldThroughout(run: Run, a: Attempt, view: map<Device, Target>)
    requires IsRun(run) && a.capture <= a.check <= |run.steps|
  {
    forall i :: a.capture <= i <= a.check ==> ViewAt(run, i) == view
  }

  datatype Outcome =
    | Snapshot(status: ConnectionStatus)
    | ReadFailed
    | Cancelled
    | ConnectionsChanged

  /** The counts and the list a status reports are those of a view. */
  ghost predicate Summarizes(status: ConnectionStatus, view: map<Device, Target>) {
    && status.connected == |view|
    && status.workerReady == |set d | d in view && view[d].workerReady|
    && status.dispatchable == |set d | d in view && view[d].dispatchable|
    && Distinct(status.syncReadyDevices)
    && forall d :: d in status.syncReadyDevices <==> d in view && view[d].syncReady
  }

  method CaptureStatus(t: Table) returns (status: ConnectionStatus)
    ensures status.generation == t.generation && Summarizes(status, View(t))
  {
    status := Server.CountConnections(t);
    assert WorkerReadyDevices(t) == set d | d in View(t) && View(t)[d].workerReady;
    assert DispatchableDevices(t) == set d | d in View(t) && View(t)[d].dispatchable;
  }

  lemma HeldWhenUnmoved(run: Run, a: Attempt)
    requires IsRun(run) && a.capture <= a.check <= |run.steps| && !Moved(run, a)
    ensures HeldThroughout(run, a, ViewAt(run, a.capture))
  {
    forall i | a.capture <= i <= a.check ensures ViewAt(run, i) == ViewAt(run, a.capture) {
      StableView(run, a.capture, i, a.check);
    }
  }

  /**
   A status that is returned is true of every moment of its durable read; `tries` counts the tries
   that were retried.
   */
  method Status(run: Run, attempts: seq<Attempt>) returns (outcome: Outcome, tries: nat)
    requires Scheduled(run, attempts)
    ensures tries <= MAXIMUM_SNAPSHOT_ATTEMPTS
    ensures forall k :: 0 <= k < tries ==> Retried(run, attempts[k])
    ensures outcome.ConnectionsChanged? <==> tries == MAXIMUM_SNAPSHOT_ATTEMPTS
    ensures outcome.Snapshot? ==>
              && !attempts[tries].readFails
              && forall i :: attempts[tries].capture <= i <= attempts[tries].check ==>
                               Summarizes(outcome.status, ViewAt(run, i))
    ensures outcome.ReadFailed? ==> attempts[tries].readFails
    ensures outcome.Cancelled? ==>
              !attempts[tries].readFails && Moved(run, attempts[tries]) && attempts[tries].cancelled
  {
    tries := 0;
    while tries < MAXIMUM_SNAPSHOT_ATTEMPTS
      invariant tries <= MAXIMUM_SNAPSHOT_ATTEMPTS
      invariant forall k :: 0 <= k < tries ==> Retried(run, attempts[k])
    {
      var a := attempts[tries];
      var status := CaptureStatus(run.states[a.capture].table);
      if a.readFails { return ReadFailed, tries; }
      if GenerationAt(run, a.check) == status.generation {
        HeldWhenUnmoved(run, a);
        return Snapshot(status), tries;
      }
      if a.cancelled { return Cancelled, tries; }
      tries := tries + 1;
    }
    outcome := ConnectionsChanged;
  }

  // ---------------------------------------------------------------------------------------------
  // Agent listings
  // ---------------------------------------------------------------------------------------------

  datatype Freshness = Missing | Offline | Syncing | Fresh

  /** What the store holds for one agent, as far as the projection reads it. */
  datatype AgentRecord = AgentRecord(agent: string, device: Device, hasLifecycle: bool)

  datatype AgentState = AgentState(agent: string, targetDispatchable: bool, freshness: Freshness)

  function ProjectAgentState(record: AgentRecord, target: Option<Target>): (state: AgentState) {
    var freshness :=
      if !record.hasLifecycle then Missing
      else if target.None? then Offline
      else if !target.value.syncReady then Syncing
      else Fresh;
    AgentState(record.agent, target.Some? && target.value.dispatchable, freshness)
  }

  /** What a listing may say of an agent when the table was `t`. */
  ghost predicate Describes(state: AgentState, record: AgentRecord, t: Table) {
    && state.agent == record.agent
    && (state.targetDispatchable <==> Dispatchable(t, record.device))
    && (state.freshness.Missing? <==> !record.hasLifecycle)
    && (state.freshness.Offline? <==> record.hasLifecycle && !Current(t, record.device))
    && (state.freshness.Fresh? <==> record.hasLifecycle && SyncReady(t, record.device))
  }

  function TargetOf(view: map<Device, Target>, d: Device): Option<Target> {
    if d in view then Some(view[d]) else None
  }

  lemma ProjectionDescribes(record: AgentRecord, t: Table)
    ensures Describes(ProjectAgentState(record, TargetOf(View(t), record.device)), record, t)
  {
  }

  datatype Listing = Agents(agents: seq<AgentState>) | Failed

  /** A listing that is returned describes, for each stored agent, every moment of its durable read. */
  method ListAgentStates(run: Run, attempts: seq<Attempt>, pages: seq<seq<AgentRecord>>)
    returns (listing: Listing, tries: nat)
    requires Scheduled(run, attempts) && |pages| == |attempts|
    ensures forall k :: 0 <= k < tries && k < |attempts| ==> Retried(run, attempts[k])
    ensures listing.Agents? ==>
              && tries < |attempts| && !attempts[tries].readFails
              && |listing.agents| == |pages[tries]|
              && (forall n, i :: 0 <= n < |listing.agents| && attempts[tries].capture <= i <= attempts[tries].check ==>
                    Describes(listing.agents[n], pages[tries][n], run.states[i].table))
    ensures listing.Failed? ==>
              || tries == MAXIMUM_SNAPSHOT_ATTEMPTS
              || (tries < |attempts| &&
                   (attempts[tries].readFails || (Moved(run, attempts[tries]) && attempts[tries].cancelled)))
  {
    tries := 0;
    while tries < MAXIMUM_SNAPSHOT_ATTEMPTS
      invariant tries <= MAXIMUM_SNAPSHOT_ATTEMPTS
      invariant forall k :: 0 <= k < tries ==> Retried(run, attempts[k])
    {
      var a := attempts[tries];
      var targets := ViewAt(run, a.capture);
      if a.readFails { return Failed, tries; }
      if GenerationAt(run, a.check) != GenerationAt(run, a.capture) {
        if a.cancelled { return Failed, tries; }
        tries := tries + 1;
        continue;
      }
      var agents := ProjectPage(pages[tries], targets);
      ghost var page := pages[tries];
      HeldWhenUnmoved(run, a);
      forall n, i | 0 <= n < |agents| && a.capture <= i <= a.check
        ensures Describes(agents[n], page[n], run.states[i].table)
      {
        assert ViewAt(run, i) == targets;
        ProjectionDescribes(page[n], run.states[i].table);
      }
      return Agents(agents), tries;
    }
    listing := Failed;
  }

  method ProjectPage(page: seq<AgentRecord>, targets: map<Device, Target>) returns (agents: seq<AgentState>)
    ensures |agents| == |page|
    ensures forall n :: 0 <= n < |page| ==> agents[n] == ProjectAgentState(page[n], TargetOf(targets, page[n].device))
  {
    agents := [];
    for n := 0 to |page|
      invariant |agents| == n
      invariant forall k :: 0 <= k < n ==> agents[k] == ProjectAgentState(page[k], TargetOf(targets, page[k].device))
    {
      agents := agents + [ProjectAgentState(page[n], TargetOf(targets, page[n].device))];
    }
  }
}
