/**
 The operating system as the macOS descendant tracker meets it: processes fork, stop, exit, are
 reaped, and their process numbers are used again.

 Two assumptions are the tracker's own (internal/appserver/descendant_tracker_darwin.go): only a
 running process forks, and nobody but the tracker resumes a stopped one.
 */
module Kernel {

  datatype Status = Running | Stopped | Zombie

  /** A process number together with a start time that is never used twice for it. */
  datatype Identity = Identity(pid: nat, start: nat)

  datatype Process = Process(start: nat, parent: nat, status: Status)

  datatype Os = Os(procs: map<nat, Process>, clock: nat)

  /** Orphans become children of this process. */
  const LAUNCHD: nat := 1

  datatype Event =
    | Fork(parent: nat, child: nat)
    | Halt(pid: nat)
    | Exit(pid: nat)
    | Reap(pid: nat)

  predicate Live(os: Os, pid: nat) {
    pid in os.procs && !os.procs[pid].status.Zombie?
  }

  function Orphaned(os: Os, pid: nat): map<nat, Process> {
    map q | q in os.procs ::
      if os.procs[q].parent == pid then os.procs[q].(parent := LAUNCHD) else os.procs[q]
  }

  function Happen(os: Os, e: Event): Os {
    match e
    case Fork(parent, child) =>
      if Live(os, parent) && os.procs[parent].status.Running? && child !in os.procs && child > LAUNCHD
      then Os(os.procs[child := Process(os.clock + 1, parent, Running)], os.clock + 1)
      else os
    case Halt(pid) =>
      if Live(os, pid) then os.(procs := os.procs[pid := os.procs[pid].(status := Stopped)]) else os
    case Exit(pid) =>
      if Live(os, pid) && pid > LAUNCHD
      then os.(procs := Orphaned(os, pid)[pid := os.procs[pid].(status := Zombie)]) else os
    case Reap(pid) =>
      if pid in os.procs && os.procs[pid].status.Zombie? then os.(procs := os.procs - {pid}) else os
  }

  /** SIGCONT reaching whatever holds the process number. */
  function Resumed(os: Os, pid: nat): Os {
    if Live(os, pid) && os.procs[pid].status.Stopped?
    then os.(procs := os.procs[pid := os.procs[pid].(status := Running)]) else os
  }

  ghost predicate WellFormed(os: Os) {
    && 0 !in os.procs
    && Live(os, LAUNCHD) && os.procs[LAUNCHD].parent == 0
    && (forall pid :: pid in os.procs ==> os.procs[pid].start <= os.clock)
  }

  predicate Born(os: Os, id: Identity) {
    id.start <= os.clock
  }

  predicate Alive(os: Os, id: Identity) {
    Live(os, id.pid) && os.procs[id.pid].start == id.start
  }

  predicate Frozen(os: Os, id: Identity) {
    Alive(os, id) && os.procs[id.pid].status.Stopped?
  }

  predicate ChildOf(os: Os, c: Identity, p: Identity) {
    Alive(os, c) && Alive(os, p) && os.procs[c.pid].parent == p.pid
  }

  // ---------------------------------------------------------------------------------------------
  // What every evolution keeps
  // ---------------------------------------------------------------------------------------------

  /** Time passes, the dead stay dead. */
  ghost predicate Later(a: Os, b: Os) {
    && WellFormed(b)
    && a.clock <= b.clock
    && (forall id :: Born(a, id) && Alive(b, id) ==> Alive(a, id))
  }

  /** The stopped stay stopped or die, and have no new children; `except` may have been resumed. */
  ghost predicate Holds(a: Os, b: Os, except: nat) {
    && (forall id :: Frozen(a, id) && Alive(b, id) && id.pid != except ==> Frozen(b, id))
    && (forall p, c :: Frozen(a, p) && ChildOf(b, c, p) && LAUNCHD < p.pid != except ==> ChildOf(a, c, p))
  }

  /** Process 0 never exists, so this excepts nobody. */
  ghost predicate Evolves(a: Os, b: Os) {
    Later(a, b) && Holds(a, b, 0)
  }

  lemma HappenEvolves(os: Os, e: Event)
    requires WellFormed(os)
    ensures Evolves(os, Happen(os, e))
  {
  }

  lemma EvolvesTrans(a: Os, b: Os, c: Os)
    requires WellFormed(a) && Evolves(a, b) && Evolves(b, c)
    ensures Evolves(a, c)
  {
    forall id | Frozen(a, id) && Alive(c, id) ensures Frozen(c, id) {
      assert Born(b, id);
      assert Alive(b, id);
      assert Frozen(b, id);
    }
    forall p, k | Frozen(a, p) && ChildOf(c, k, p) && LAUNCHD < p.pid != 0 ensures ChildOf(a, k, p) {
      assert Alive(b, p);
      assert Frozen(b, p);
      assert ChildOf(b, k, p);
    }
  }

  lemma ResumedLater(os: Os, pid: nat)
    requires WellFormed(os)
    ensures Later(os, Resumed(os, pid)) && Holds(os, Resumed(os, pid), pid)
  {
  }
}
