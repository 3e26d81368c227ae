/**
 The macOS descendant tracker's containment (internal/appserver/descendant_tracker_darwin.go): stop
 the known tree, close it under "child of", stop again until two passes change nothing, then kill.

 Every system call is preceded by an arbitrary evolution of the operating system, so each method is
 proved against every interleaving with forks, exits and reused process numbers. A call may also
 fail; a method's `ok` says that no call it made failed.
 */
module Containment {
  import opened Kernel

  const MAX_TRACKED: nat := 4096

  datatype Option<T> = None | Some(value: T)

  datatype Info = Info(identity: Identity, parent: nat, status: Status)

  function InfoOf(os: Os, pid: nat): Option<Info> {
    if pid !in os.procs then None
    else Some(Info(Identity(pid, os.procs[pid].start), os.procs[pid].parent, os.procs[pid].status))
  }

  datatype Signal = Stop | Kill

  datatype Delivery = Sent | NoSuchProcess | Refused

  /** A signal the operating system took. */
  datatype Sending = Sending(pid: nat, signal: Signal)

  /** The log has only grown, and by nothing but `signal` to the process numbers in `pids`. */
  ghost predicate OnlySent(before: seq<Sending>, after: seq<Sending>, signal: Signal, pids: set<nat>) {
    && before <= after
    && (forall k :: |before| <= k < |after| ==> after[k].signal == signal && after[k].pid in pids)
  }

  ghost predicate SentSince(sent: seq<Sending>, from: nat, pid: nat, signal: Signal) {
    exists k :: from <= k < |sent| && sent[k] == Sending(pid, signal)
  }

  lemma SentStill(a: seq<Sending>, b: seq<Sending>, from: nat, pid: nat, signal: Signal)
    requires a <= b && SentSince(a, from, pid, signal)
    ensures SentSince(b, from, pid, signal)
  {
    var k :| from <= k < |a| && a[k] == Sending(pid, signal);
    assert b[k] == a[k];
  }

  // ---------------------------------------------------------------------------------------------
  // The tracker's state and what its operations may do to it
  // ---------------------------------------------------------------------------------------------

  datatype Snap = Snap(os: Os, active: map<nat, Identity>, revision: nat)

  predicate Tracked(s: Snap, id: Identity) {
    id.pid in s.active && s.active[id.pid] == id
  }

  ghost predicate Valid(s: Snap) {
    && WellFormed(s.os)
    && (forall pid :: pid in s.active ==>
          s.active[pid].pid == pid && LAUNCHD < pid && Born(s.os, s.active[pid]))
  }

  /** Only dead identities are dropped, and a recorded one moves the revision. */
  ghost predicate Base(s: Snap, t: Snap) {
    && Valid(t)
    && Later(s.os, t.os)
    && s.revision <= t.revision
    && (forall id :: Tracked(s, id) && Alive(t.os, id) ==> Tracked(t, id))
    && (s.revision == t.revision ==> forall id :: Tracked(t, id) ==> Tracked(s, id))
  }

  /** Unless something was recorded, what is still tracked stayed stopped and got no new child. */
  ghost predicate Calm(s: Snap, t: Snap) {
    s.revision == t.revision ==>
      && (forall id :: Tracked(t, id) && Frozen(s.os, id) && Alive(t.os, id) ==> Frozen(t.os, id))
      && (forall p, c :: Tracked(t, p) && Frozen(s.os, p) && ChildOf(t.os, c, p) ==> ChildOf(s.os, c, p))
  }

  /** `m` is a moment between `s` and `t`. */
  ghost predicate Between(s: Snap, m: Snap, t: Snap) {
    Base(s, m) && Calm(s, m) && Base(m, t) && Calm(m, t)
  }

  lemma Reflexive(s: Snap)
    requires Valid(s)
    ensures Base(s, s) && Calm(s, s)
  {
  }

  /** No other identity is tracked under this one's process number. */
  predicate Fresh(s: Snap, id: Identity) {
    id.pid in s.active ==> s.active[id.pid] == id
  }

  lemma BaseTrans(s: Snap, t: Snap, u: Snap)
    requires Valid(s) && Base(s, t) && Base(t, u)
    ensures Base(s, u)
  {
  }

  lemma CalmTrans(s: Snap, t: Snap, u: Snap)
    requires Valid(s) && Base(s, t) && Base(t, u) && Calm(s, t) && Calm(t, u)
    ensures Calm(s, u)
  {
    if s.revision == u.revision {
      forall id | Tracked(u, id) && Frozen(s.os, id) && Alive(u.os, id) ensures Frozen(u.os, id) {
        assert Tracked(t, id) && Born(t.os, id);
        assert Frozen(t.os, id);
      }
      forall p, c | Tracked(u, p) && Frozen(s.os, p) && ChildOf(u.os, c, p) ensures ChildOf(s.os, c, p) {
        assert Tracked(t, p) && Born(t.os, p);
        assert Frozen(t.os, p);
        assert ChildOf(t.os, c, p);
      }
    }
  }

  lemma Trans(s: Snap, t: Snap, u: Snap)
    requires Valid(s) && Base(s, t) && Base(t, u) && Calm(s, t) && Calm(t, u)
    ensures Base(s, u) && Calm(s, u)
  {
    BaseTrans(s, t, u);
    CalmTrans(s, t, u);
  }

  /** While only the operating system moves, everything is kept. */
  lemma EvolutionKeeps(s: Snap, os: Os)
    requires Valid(s) && Evolves(s.os, os)
    ensures Base(s, s.(os := os)) && Calm(s, s.(os := os))
  {
  }

  // ---------------------------------------------------------------------------------------------
  // What containment means
  // ---------------------------------------------------------------------------------------------

  /** Every tracked process is stopped or dead. */
  ghost predicate Halted(s: Snap) {
    forall id :: Tracked(s, id) && Alive(s.os, id) ==> Frozen(s.os, id)
  }

  /** Live children of `p` that use process number `pid` are tracked. */
  ghost predicate CoveredAt(s: Snap, p: Identity, pid: nat) {
    forall c: Identity :: c.pid == pid && ChildOf(s.os, c, p) ==> Tracked(s, c)
  }

  ghost predicate Covered(s: Snap, p: Identity) {
    forall c :: ChildOf(s.os, c, p) ==> Tracked(s, c)
  }

  ghost predicate Contained(s: Snap) {
    Halted(s) && (forall p :: Tracked(s, p) ==> Covered(s, p))
  }

  lemma CoveredAtKept(s: Snap, t: Snap, p: Identity, pid: nat)
    requires Valid(s) && Base(s, t) && Calm(s, t) && s.revision == t.revision
    requires Tracked(s, p) && Frozen(s.os, p) && CoveredAt(s, p, pid)
    ensures CoveredAt(t, p, pid)
  {
    forall c: Identity | c.pid == pid && ChildOf(t.os, c, p) ensures Tracked(t, c) {
      assert Tracked(t, p);
      assert ChildOf(s.os, c, p);
    }
  }

  /** Nothing the operating system does can break containment: no untracked child can appear. */
  lemma ContainedIsStable(s: Snap, os: Os)
    requires Valid(s) && Contained(s) && Evolves(s.os, os)
    ensures Contained(s.(os := os))
  {
    var t := s.(os := os);
    EvolutionKeeps(s, os);
    forall p, c | Tracked(t, p) && ChildOf(os, c, p) ensures Tracked(t, c) {
      assert Tracked(s, p) && Covered(s, p) && Alive(s.os, p);
      assert Frozen(s.os, p);
      assert ChildOf(s.os, c, p);
    }
  }

  /** A chain of live parent links. */
  predicate Line(os: Os, line: seq<Identity>) {
    && line != []
    && Alive(os, line[0])
    && (forall i :: 0 < i < |line| ==> ChildOf(os, line[i], line[i - 1]))
  }

  /** The whole living family of a tracked process, at any depth, is tracked and stopped. */
  lemma {:induction false} DescendantsContained(s: Snap, line: seq<Identity>, i: nat)
    requires Contained(s) && Line(s.os, line) && Tracked(s, line[0]) && i < |line|
    ensures Tracked(s, line[i]) && Frozen(s.os, line[i])
  {
    if i > 0 {
      DescendantsContained(s, line, i - 1);
      assert Covered(s, line[i - 1]);
    }
  }

  /**
   One stable pass is not enough: a process can fork between the enumeration of its children and its
   stop. Here the enumeration finds nothing, everything tracked ends up stopped, and a live child is missed.
   */
  lemma OneStablePassIsNotEnough() returns (s: Snap, t: Snap, u: Snap, root: Identity, child: Identity)
    ensures Valid(s) && Tracked(s, root) && Covered(s, root)
    ensures t == s.(os := Happen(s.os, Fork(root.pid, child.pid)))
    ensures u == t.(os := Happen(t.os, Halt(root.pid)))
    ensures u.revision == s.revision && Halted(u)
    ensures ChildOf(u.os, child, root) && !Tracked(u, child) && !Contained(u)
  {
    root, child := Identity(2, 1), Identity(3, 2);
    var os := Os(map[LAUNCHD := Process(0, 0, Running), 2 := Process(1, LAUNCHD, Running)], 1);
    s := Snap(os, map[2 := root], 1);
    t := s.(os := Happen(s.os, Fork(root.pid, child.pid)));
    u := t.(os := Happen(t.os, Halt(root.pid)));
    assert !Covered(u, root) by { assert ChildOf(u.os, child, root); }
  }

  // ---------------------------------------------------------------------------------------------
  // The tracker
  // ---------------------------------------------------------------------------------------------

  class Tracker {
    var os: Os
    var active: map<nat, Identity>
    var stopRequests: map<nat, Identity>
    var revision: nat

    /** The signals sent so far, the process numbers resumed, and how many errors there have been. */
    ghost var sent: seq<Sending>
    ghost var resumed: set<nat>
    ghost var errors: nat

    function Now(): Snap
      reads this
    {
      Snap(os, active, revision)
    }

    /** Anything may happen between two system calls. */
    method Interference()
      requires Valid(Now())
      modifies this`os
      ensures Evolves(old(os), os) && Base(old(Now()), Now()) && Calm(old(Now()), Now())
    {
      ghost var before := Now();
      var events: nat := *;
      while events > 0
        invariant WellFormed(os) && Evolves(before.os, os)
      {
        var e: Event := *;
        ghost var previous := os;
        HappenEvolves(os, e);
        os := Happen(os, e);
        EvolvesTrans(before.os, previous, os);
        events := events - 1;
      }
      EvolutionKeeps(before, os);
    }

    // System calls

    method ProcessInfo(pid: nat) returns (info: Option<Info>, ok: bool)
      requires Valid(Now())
      modifies this`os, this`errors
      ensures Base(old(Now()), Now()) && Calm(old(Now()), Now())
      ensures ok ==> info == InfoOf(os, pid)
      ensures errors == if ok then old(errors) else old(errors) + 1
    {
      Interference();
      ok := *;
      info := InfoOf(os, pid);
      if !ok { errors := errors + 1; }
    }

    method ChildPids(pid: nat) returns (children: set<nat>, ok: bool)
      requires Valid(Now())
      modifies this`os, this`errors
      ensures Base(old(Now()), Now()) && Calm(old(Now()), Now())
      ensures ok ==> children == set c | c in os.procs && os.procs[c].parent == pid
      ensures errors == if ok then old(errors) else old(errors) + 1
    {
      Interference();
      ok := *;
      if ok {
        children := set c | c in os.procs && os.procs[c].parent == pid;
      } else {
        children := *;
        errors := errors + 1;
      }
    }

    /** Registering a watch: a process that is gone (or only a zombie) is reported missing. */
    method Watch(pid: nat) returns (missing: bool, ok: bool)
      requires Valid(Now())
      modifies this`os, this`errors
      ensures Base(old(Now()), Now()) && Calm(old(Now()), Now())
      ensures missing ==> ok && !Live(os, pid)
      ensures errors == if ok then old(errors) else old(errors) + 1
    {
      Interference();
      missing := *;
      if Live(os, pid) { missing := false; }
      ok := *;
      if missing { ok := true; }
      if !ok { errors := errors + 1; }
    }

    method Unwatch(pid: nat) returns (ok: bool)
      requires Valid(Now())
      modifies this`os, this`errors
      ensures Base(old(Now()), Now()) && Calm(old(Now()), Now())
      ensures errors == if ok then old(errors) else old(errors) + 1
    {
      Interference();
      ok := *;
      if !ok { errors := errors + 1; }
    }

    /** SIGSTOP and SIGKILL take effect now or later, as the operating system decides. */
    method SignalProcess(pid: nat, signal: Signal) returns (delivery: Delivery)
      requires Valid(Now())
      modifies this`os, this`sent, this`errors
      ensures Base(old(Now()), Now()) && Calm(old(Now()), Now())
      ensures delivery.NoSuchProcess? ==> !Live(os, pid)
      ensures sent == if delivery.Sent? then old(sent) + [Sending(pid, signal)] else old(sent)
      ensures errors == if delivery.Refused? then old(errors) + 1 else old(errors)
    {
      Interference();
      delivery := *;
      if delivery.NoSuchProcess? && Live(os, pid) { delivery := Refused; }
      if delivery.Refused? { errors := errors + 1; }
      if delivery.Sent? { sent := sent + [Sending(pid, signal)]; }
      ghost var before := Now();
      var immediate: bool := *;
      if delivery.Sent? && immediate {
        var e := if signal.Stop? then Halt(pid) else Exit(pid);
        HappenEvolves(os, e);
        os := Happen(os, e);
      }
      EvolutionKeeps(before, os);
      Trans(old(Now()), before, Now());
    }

    /** SIGCONT: the only call that can set a stopped process running. */
    method ResumeProcess(pid: nat) returns (ok: bool)
      requires Valid(Now())
      modifies this`os, this`resumed, this`errors
      ensures Base(old(Now()), Now())
      ensures pid !in active ==> Calm(old(Now()), Now())
      ensures if ok then resumed == old(resumed) + {pid} && errors == old(errors)
              else resumed == old(resumed) && errors == old(errors) + 1
      ensures ok && Live(os, pid) ==> os.procs[pid].status.Running?
    {
      Interference();
      ok := *;
      ghost var before := Now();
      if ok {
        ResumedLater(os, pid);
        os := Resumed(os, pid);
        resumed := resumed + {pid};
      } else {
        errors := errors + 1;
      }
      ResumeKeeps(before, os, pid);
      BaseTrans(old(Now()), before, Now());
      if pid !in active { CalmTrans(old(Now()), before, Now()); }
    }

    // Tracking

    /** Another process was seen stopped under the number this identity had been told to stop under. */
    ghost predicate OwesResume(identity: Identity, observed: Option<Info>)
      reads this
    {
      && identity.pid in stopRequests && stopRequests[identity.pid] == identity
      && observed.Some? && observed.value.identity != identity && observed.value.status.Stopped?
    }

    /** The second look, at `seen`, finds the process that was observed, and finds it stopped. */
    static predicate StillStopped(seen: Snap, pid: nat, observed: Info) {
      var info := InfoOf(seen.os, pid);
      info.Some? && info.value.identity == observed.identity && info.value.status.Stopped?
    }

    method ResumeReplacement(pid: nat, observed: Info) returns (ok: bool, ghost seen: Snap)
      requires Valid(Now())
      modifies this`os, this`resumed, this`errors
      ensures Base(old(Now()), Now())
      ensures pid !in active ==> Calm(old(Now()), Now())
      ensures old(errors) <= errors && (ok <==> errors == old(errors))
      ensures if StillStopped(seen, pid, observed) then ok ==> pid in resumed else resumed == old(resumed)
    {
      var replacement, inspected := ProcessInfo(pid);
      seen := Now();
      if !inspected { return false, seen; }
      if replacement.None? || replacement.value.identity != observed.identity ||
         !replacement.value.status.Stopped? { return true, seen; }
      ok := ResumeProcess(pid);
      BaseTrans(old(Now()), seen, Now());
      if pid !in active { CalmTrans(old(Now()), seen, Now()); }
    }

    /**
     Drop a dead identity. If it had been told to stop, whoever has its process number now may have been
     stopped in its place, and is resumed if a second look still finds it stopped.
     */
    method ForgetIdentity(identity: Identity, observed: Option<Info>) returns (ok: bool, ghost seen: Snap)
      requires Valid(Now()) && Born(os, identity) && !Alive(os, identity)
      modifies this`os, this`active, this`stopRequests, this`resumed, this`errors
      ensures Base(old(Now()), Now())
      ensures old(Fresh(Now(), identity)) ==> Calm(old(Now()), Now())
      ensures !Tracked(Now(), identity)
      ensures identity.pid in stopRequests ==> stopRequests[identity.pid] != identity
      ensures old(errors) <= errors && (ok <==> errors == old(errors))
      ensures if old(OwesResume(identity, observed)) && StillStopped(seen, identity.pid, observed.value)
              then ok ==> identity.pid in resumed
              else resumed == old(resumed)
    {
      ghost var before := Now();
      seen := before;
      if identity.pid in active && active[identity.pid] == identity {
        active := active - {identity.pid};
      }
      ghost var dropped := Now();
      if identity.pid !in stopRequests || stopRequests[identity.pid] != identity { return true, seen; }
      stopRequests := stopRequests - {identity.pid};
      if observed.None? || observed.value.identity == identity || !observed.value.status.Stopped? {
        return true, seen;
      }
      ok, seen := ResumeReplacement(identity.pid, observed.value);
      BaseTrans(before, dropped, Now());
      if Fresh(before, identity) { CalmTrans(before, dropped, Now()); }
    }

    /** Look at a process by its number; if the identity is no longer there, or only a zombie, forget it. */
    method Inspect(identity: Identity) returns (status: Option<Status>, gone: bool, ok: bool)
      requires Valid(Now()) && Born(os, identity)
      modifies this`os, this`active, this`stopRequests, this`resumed, this`errors
      ensures Base(old(Now()), Now())
      ensures old(Fresh(Now(), identity)) ==> Calm(old(Now()), Now())
      ensures old(errors) <= errors && (ok <==> errors == old(errors))
      ensures !gone ==> Calm(old(Now()), Now()) && active == old(active) && stopRequests == old(stopRequests)
      ensures status.Some? ==>
                ok && !gone && Alive(os, identity) && os.procs[identity.pid].status == status.value
      ensures gone ==> !Alive(os, identity) && !Tracked(Now(), identity)
      ensures ok && status.None? ==> gone
    {
      ghost var before := Now();
      var info, inspected := ProcessInfo(identity.pid);
      ghost var seen := Now();
      if !inspected { return None, false, false; }
      if info.None? || info.value.identity != identity || info.value.status.Zombie? {
        ghost var look;
        ok, look := ForgetIdentity(identity, info);
        BaseTrans(before, seen, Now());
        if Fresh(before, identity) { CalmTrans(before, seen, Now()); }
        return None, true, ok;
      }
      return Some(info.value.status), false, true;
    }

    method RecordIdentity(identity: Identity) returns (ok: bool)
      requires Valid(Now()) && Born(os, identity) && LAUNCHD < identity.pid
      requires identity.pid in active && active[identity.pid] != identity ==> !Alive(os, active[identity.pid])
      modifies this`active, this`revision, this`errors
      ensures Base(old(Now()), Now()) && Tracked(Now(), identity)
      ensures revision == if old(Tracked(Now(), identity)) then old(revision) else old(revision) + 1
      ensures ok <==> |active| == |old(active)| || |active| <= MAX_TRACKED
      ensures old(errors) <= errors && (ok <==> errors == old(errors))
    {
      var found := identity.pid in active;
      if found && active[identity.pid] == identity { return true; }
      assert active[identity.pid := identity].Keys == active.Keys + {identity.pid};
      assert |active| == |active.Keys| && |active[identity.pid := identity]| == |active.Keys + {identity.pid}|;
      active := active[identity.pid := identity];
      revision := revision + 1;
      ok := found || |active| <= MAX_TRACKED;
      if !ok { errors := errors + 1; }
    }

    /**
     Put a fresh watch on the process and look again. `confirmed` says it is still the process that was
     found, and still the expected parent's child; `ok` is false when a call failed.
     */
    method ConfirmWatch(info: Info, expectedParent: Option<nat>) returns (confirmed: bool, ok: bool)
      requires Valid(Now())
      modifies this`os, this`errors
      ensures Base(old(Now()), Now()) && Calm(old(Now()), Now())
      ensures old(errors) <= errors && (ok <==> errors == old(errors))
      ensures confirmed ==> ok && InfoOf(os, info.identity.pid).Some? &&
                            InfoOf(os, info.identity.pid).value.identity == info.identity &&
                            (expectedParent.Some? ==>
                              InfoOf(os, info.identity.pid).value.parent == expectedParent.value)
      ensures ok && !confirmed ==>
                exists m :: Between(old(Now()), m, Now()) &&
                            (!Alive(m.os, info.identity) ||
                             (expectedParent.Some? && m.os.procs[info.identity.pid].parent != expectedParent.value))
    {
      ghost var before := Now();
      var pid := info.identity.pid;
      var missing, watched := Watch(pid);
      if missing {
        Reflexive(Now());
        return false, true;
      }
      if !watched { return false, false; }
      ghost var watching := Now();
      var again, inspected := ProcessInfo(pid);
      Trans(before, watching, Now());
      if !inspected { return false, false; }
      ghost var checked := Now();
      if again.None? || again.value.identity != info.identity ||
         (expectedParent.Some? && again.value.parent != expectedParent.value) {
        var _ := Unwatch(pid);
        // Whether the watch could be taken away again does not matter, here as in the source.
        errors := old(errors);
        Trans(before, checked, Now());
        return false, true;
      }
      return true, true;
    }

    /** Forget whoever was tracked under the process number before, and take the watch on it away. */
    method ClearNumber(info: Info) returns (replaced: bool, ok: bool)
      requires Valid(Now()) && InfoOf(os, info.identity.pid) == Some(info) && !Tracked(Now(), info.identity)
      modifies this`os, this`active, this`stopRequests, this`resumed, this`errors
      ensures Base(old(Now()), Now()) && Calm(old(Now()), Now())
      ensures info.identity.pid !in active
      ensures old(errors) <= errors && (replaced && ok <==> errors == old(errors))
    {
      ghost var before := Now();
      var pid := info.identity.pid;
      replaced := true;
      if pid in active {
        ghost var look;
        replaced, look := ForgetIdentity(active[pid], Some(info));
      }
      ghost var forgotten := Now();
      NumberFree(before, forgotten, pid);
      ok := Unwatch(pid);
      Trans(before, forgotten, Now());
    }

    /**
     `parent` is the identity whose child `info` was found to be; `fuel` bounds the depth of discovery.
     Only what a second look confirms is adopted.
     */
    method AddProcess(info: Info, expectedParent: Option<nat>, ghost parent: Identity, fuel: nat) returns (ok: bool)
      requires Valid(Now()) && InfoOf(os, info.identity.pid) == Some(info) && LAUNCHD < info.identity.pid
      modifies this`os, this`active, this`stopRequests, this`revision, this`resumed, this`errors
      ensures Base(old(Now()), Now()) && Calm(old(Now()), Now())
      ensures old(errors) <= errors && (ok <==> errors == old(errors))
      ensures ok && revision == old(revision) && expectedParent == Some(parent.pid) == Some(info.parent) &&
              old(Tracked(Now(), parent) && Frozen(os, parent)) ==>
                CoveredAt(Now(), parent, info.identity.pid)
      ensures expectedParent.Some? && info.parent != expectedParent.value ==> revision == old(revision)
      decreases fuel, 1
    {
      ghost var before := Now();
      var pid := info.identity.pid;
      if pid in active && active[pid] == info.identity { return true; }
      var replaced, unwatched := ClearNumber(info);
      if !unwatched { return false; }
      if expectedParent.Some? && info.parent != expectedParent.value { return replaced; }
      ghost var cleared := Now();
      var confirmed, looked := ConfirmWatch(info, expectedParent);
      Trans(before, cleared, Now());
      if !looked { return false; }
      if !confirmed {
        if expectedParent == Some(parent.pid) { NotConfirmed(before, cleared, Now(), parent, info); }
        // An error of the identity that was replaced is dropped here, as in the source.
        errors := old(errors);
        return true;
      }
      ghost var checked := Now();
      var adopted := Adopt(info.identity, expectedParent, fuel);
      BaseTrans(before, checked, Now());
      ok := replaced && adopted;
    }

    /** Record a process that is there, the expected parent's, and not tracked yet; look for its own children. */
    method Adopt(identity: Identity, ghost expectedParent: Option<nat>, fuel: nat) returns (ok: bool)
      requires Valid(Now()) && LAUNCHD < identity.pid && !Tracked(Now(), identity)
      requires InfoOf(os, identity.pid).Some? && InfoOf(os, identity.pid).value.identity == identity
      requires expectedParent.Some? ==> InfoOf(os, identity.pid).value.parent == expectedParent.value
      requires identity.pid in active ==> !Alive(os, active[identity.pid])
      modifies this`os, this`active, this`stopRequests, this`revision, this`resumed, this`errors
      ensures Base(old(Now()), Now()) && old(revision) < revision
      ensures Alive(os, identity) ==> Tracked(Now(), identity)
      ensures old(errors) <= errors && (ok <==> errors == old(errors))
      decreases fuel, 0
    {
      ghost var before := Now();
      var limited := RecordIdentity(identity);
      ghost var recorded := Now();
      if fuel == 0 {
        errors := errors + 1;
        return false;
      }
      var discovered := DiscoverChildren(identity, fuel - 1);
      BaseTrans(before, recorded, Now());
      ok := limited && discovered;
    }

    /** One listed child: look at it, and add it if it still is the parent's; `seen` is the moment of the look. */
    method VisitChild(parent: Identity, pid: nat, fuel: nat) returns (ok: bool, ghost seen: Snap)
      requires Valid(Now()) && LAUNCHD < parent.pid
      modifies this`os, this`active, this`stopRequests, this`revision, this`resumed, this`errors
      ensures old(errors) <= errors && (ok <==> errors == old(errors))
      ensures Base(old(Now()), Now()) && Calm(old(Now()), Now()) && Between(old(Now()), seen, Now())
      ensures ok && revision == seen.revision && Tracked(seen, parent) && Frozen(seen.os, parent) ==>
                CoveredAt(Now(), parent, pid)
      decreases fuel, 2
    {
      var child, read := ProcessInfo(pid);
      seen := Now();
      Reflexive(Now());
      if !read { return false, seen; }
      ok := true;
      if child.Some? && child.value.parent == parent.pid {
        ok := AddProcess(child.value, Some(parent.pid), parent, fuel);
        Trans(old(Now()), seen, Now());
      }
    }

    method DiscoverChildren(parent: Identity, fuel: nat) returns (ok: bool)
      requires Valid(Now()) && Born(os, parent) && LAUNCHD < parent.pid
      modifies this`os, this`active, this`stopRequests, this`revision, this`resumed, this`errors
      ensures old(errors) <= errors && (ok <==> errors == old(errors))
      ensures Base(old(Now()), Now())
      ensures old(Fresh(Now(), parent)) ==> Calm(old(Now()), Now())
      ensures ok && revision == old(revision) && old(Tracked(Now(), parent) && Frozen(os, parent)) ==>
                Covered(Now(), parent)
      ensures ok && old(!Alive(os, parent)) ==> !Tracked(Now(), parent)
      decreases fuel, 3
    {
      ghost var before := Now();
      var current, inspected := ProcessInfo(parent.pid);
      if !inspected { return false; }
      ghost var checked := Now();
      if current.None? || current.value.identity != parent || current.value.status.Zombie? {
        ghost var look;
        ok, look := ForgetIdentity(parent, current);
        BaseTrans(before, checked, Now());
        if Fresh(before, parent) { CalmTrans(before, checked, Now()); }
        return;
      }
      var children, listed := ChildPids(parent.pid);
      Trans(before, checked, Now());
      ok := listed;
      var todo := children;
      while todo != {}
        invariant Base(before, Now()) && Calm(before, Now())
        invariant old(errors) <= errors && (ok <==> errors == old(errors))
        invariant ok && revision == before.revision && Tracked(before, parent) && Frozen(before.os, parent) ==>
                    forall pid :: pid !in todo ==> CoveredAt(Now(), parent, pid)
      {
        var pid :| pid in todo;
        ghost var start := Now();
        var visited;
        ghost var seen;
        visited, seen := VisitChild(parent, pid, fuel);
        Trans(before, start, Now());
        ok := ok && visited;
        if ok && revision == before.revision && Tracked(before, parent) && Frozen(before.os, parent) {
          ChildVisited(before, start, seen, Now(), parent, pid, todo);
        }
        todo := todo - {pid};
      }
      if ok && revision == before.revision && Tracked(before, parent) && Frozen(before.os, parent) {
        CoveredEverywhere(Now(), parent);
      }
    }

    method DiscoverAll(fuel: nat) returns (ok: bool)
      requires Valid(Now())
      modifies this`os, this`active, this`stopRequests, this`revision, this`resumed, this`errors
      ensures old(errors) <= errors && (ok <==> errors == old(errors))
      ensures Base(old(Now()), Now()) && Calm(old(Now()), Now())
      ensures ok && revision == old(revision) && old(Halted(Now())) ==>
                forall p :: Tracked(Now(), p) ==> Covered(Now(), p)
    {
      ghost var before := Now();
      ok := true;
      var todo := active.Values;
      while todo != {}
        invariant Base(before, Now()) && Calm(before, Now())
        invariant forall id :: id in todo ==> Tracked(before, id)
        invariant old(errors) <= errors && (ok <==> errors == old(errors))
        invariant ok && revision == before.revision && Halted(before) ==>
                    forall p :: Tracked(Now(), p) && p !in todo ==> Covered(Now(), p)
      {
        var identity :| identity in todo;
        ghost var start := Now();
        assert Tracked(before, identity);
        var discovered := DiscoverChildren(identity, fuel);
        BaseTrans(before, start, Now());
        if revision == before.revision {
          FreshWhileUnchanged(before, start, identity);
          CalmTrans(before, start, Now());
        }
        ok := ok && discovered;
        if ok && revision == before.revision && Halted(before) {
          ParentVisited(before, start, Now(), identity, todo);
        }
        todo := todo - {identity};
      }
    }

    /** After the signal: look again, and forget what has died meanwhile. */
    method ConfirmStopped(identity: Identity) returns (stopped: bool, ok: bool)
      requires Valid(Now()) && Born(os, identity)
      modifies this`os, this`active, this`stopRequests, this`resumed, this`errors
      ensures Base(old(Now()), Now())
      ensures old(Fresh(Now(), identity)) ==> Calm(old(Now()), Now())
      ensures stopped && Alive(os, identity) ==> Frozen(os, identity)
      ensures ok && (Alive(os, identity) ==> Frozen(os, identity)) ==> stopped
      ensures old(errors) <= errors && (ok <==> errors == old(errors))
      ensures stopped && !Alive(os, identity) ==> !Tracked(Now(), identity)
      ensures Tracked(Now(), identity) ==> stopRequests == old(stopRequests)
    {
      var status, gone, inspected := Inspect(identity);
      if status.None? { return gone, inspected; }
      return status.value.Stopped?, true;
    }

    /** The signal itself; that it was sent is remembered as long as the process is tracked. */
    method TellToStop(identity: Identity) returns (stopped: bool, ok: bool)
      requires Valid(Now()) && Born(os, identity)
      modifies this`os, this`active, this`stopRequests, this`sent, this`resumed, this`errors
      ensures Base(old(Now()), Now())
      ensures old(Fresh(Now(), identity)) ==> Calm(old(Now()), Now())
      ensures stopped && Alive(os, identity) ==> Frozen(os, identity)
      ensures ok && (Alive(os, identity) ==> Frozen(os, identity)) ==> stopped
      ensures old(errors) <= errors && (ok <==> errors == old(errors))
      ensures sent == old(sent) || sent == old(sent) + [Sending(identity.pid, Stop)]
      ensures stopped && !Alive(os, identity) ==> !Tracked(Now(), identity)
      ensures ok && !stopped ==> sent != old(sent)
      ensures sent != old(sent) && Tracked(Now(), identity) ==>
                identity.pid in stopRequests && stopRequests[identity.pid] == identity
    {
      ghost var before := Now();
      var delivery := SignalProcess(identity.pid, Stop);
      ghost var signalled := Now();
      if delivery.NoSuchProcess? {
        active := active - {identity.pid};
        Trans(before, signalled, Now());
        return true, true;
      }
      if delivery.Refused? { return false, false; }
      stopRequests := stopRequests[identity.pid := identity];
      stopped, ok := ConfirmStopped(identity);
      BaseTrans(before, signalled, Now());
      if Fresh(before, identity) { CalmTrans(before, signalled, Now()); }
    }

    /** Unless it is found stopped or dead the process is told to stop. */
    method StopIdentity(identity: Identity) returns (stopped: bool, ok: bool)
      requires Valid(Now()) && Born(os, identity)
      modifies this`os, this`active, this`stopRequests, this`sent, this`resumed, this`errors
      ensures Base(old(Now()), Now())
      ensures old(Fresh(Now(), identity)) ==> Calm(old(Now()), Now())
      ensures stopped && Alive(os, identity) ==> Frozen(os, identity)
      ensures ok && (Alive(os, identity) ==> Frozen(os, identity)) ==> stopped
      ensures old(errors) <= errors && (ok <==> errors == old(errors))
      ensures sent == old(sent) || sent == old(sent) + [Sending(identity.pid, Stop)]
      ensures old(Tracked(Now(), identity) && Frozen(os, identity)) ==> sent == old(sent)
      ensures stopped && !Alive(os, identity) ==> !Tracked(Now(), identity)
      ensures ok && !stopped ==> sent != old(sent)
      ensures sent != old(sent) && Tracked(Now(), identity) ==>
                identity.pid in stopRequests && stopRequests[identity.pid] == identity
    {
      ghost var before := Now();
      var status, gone, inspected := Inspect(identity);
      ghost var seen := Now();
      if status.None? { return gone, inspected; }
      if status.value.Stopped? { return true, true; }
      stopped, ok := TellToStop(identity);
      BaseTrans(before, seen, Now());
      if Fresh(before, identity) { CalmTrans(before, seen, Now()); }
    }

    /** The stop loop of one pass, root first in the source and here in any order. */
    method StopAll() returns (all: bool, ok: bool)
      requires Valid(Now())
      modifies this`os, this`active, this`stopRequests, this`sent, this`resumed, this`errors
      ensures Base(old(Now()), Now()) && Calm(old(Now()), Now())
      ensures all ==> Halted(Now())
      ensures ok && old(Halted(Now())) ==> all
      ensures old(errors) <= errors && (ok <==> errors == old(errors))
      ensures OnlySent(old(sent), sent, Stop, old(active.Keys))
    {
      ghost var before, log := Now(), sent;
      all, ok := true, true;
      var todo := active.Values;
      while todo != {}
        invariant Base(before, Now()) && Calm(before, Now())
        invariant forall id :: id in todo ==> Tracked(before, id)
        invariant all ==> forall id :: Tracked(Now(), id) && id !in todo && Alive(os, id) ==> Frozen(os, id)
        invariant ok && Halted(before) ==> all
        invariant old(errors) <= errors && (ok <==> errors == old(errors))
        invariant OnlySent(log, sent, Stop, before.active.Keys)
      {
        var identity :| identity in todo;
        ghost var start := Now();
        assert Tracked(before, identity);
        var stopped, done := StopIdentity(identity);
        FreshWhileUnchanged(before, start, identity);
        Trans(before, start, Now());
        if Halted(before) { HaltedKept(before, Now()); }
        all := all && stopped;
        ok := ok && done;
        if all { StillFrozen(start, Now(), todo, identity); }
        todo := todo - {identity};
      }
    }

    /**
     One turn of the freeze loop; `found` is the moment between its discovery and its stops. It counts as
     stable exactly when nothing was recorded and everything was found stopped.
     */
    method FreezePass(fuel: nat) returns (stable: bool, ok: bool, ghost found: Snap)
      requires Valid(Now())
      modifies this`os, this`active, this`stopRequests, this`revision, this`sent, this`resumed, this`errors
      ensures Base(old(Now()), Now()) && Base(old(Now()), found)
      ensures stable ==> Halted(Now()) && revision == old(revision)
      ensures ok && revision == old(revision) && old(Halted(Now())) ==> stable
      ensures stable && ok && old(Halted(Now())) ==> Contained(Now())
      ensures old(errors) <= errors && (ok <==> errors == old(errors))
      ensures OnlySent(old(sent), sent, Stop, found.active.Keys)
    {
      ghost var before := Now();
      var beforeRevision := revision;
      var discovered := DiscoverAll(fuel);
      found := Now();
      if found.revision == before.revision && Halted(before) { HaltedKept(before, found); }
      var all, stopped := StopAll();
      Trans(before, found, Now());
      ok := discovered && stopped;
      stable := all && revision == beforeRevision;
      if stable && ok && Halted(before) { StillCovered(before, found, Now()); }
    }

    method SignalIdentity(identity: Identity, signal: Signal) returns (ok: bool)
      requires Valid(Now()) && Born(os, identity)
      modifies this`os, this`active, this`stopRequests, this`sent, this`resumed, this`errors
      ensures Base(old(Now()), Now())
      ensures old(Fresh(Now(), identity)) ==> Calm(old(Now()), Now())
      ensures old(errors) <= errors && (ok <==> errors == old(errors))
      ensures sent == old(sent) || sent == old(sent) + [Sending(identity.pid, signal)]
      ensures ok && Tracked(Now(), identity) ==> sent != old(sent)
    {
      ghost var before := Now();
      var status, gone, inspected := Inspect(identity);
      ghost var seen := Now();
      if status.None? { return inspected; }
      var delivery := SignalProcess(identity.pid, signal);
      Trans(before, seen, Now());
      ghost var signalled := Now();
      if delivery.NoSuchProcess? {
        active := active - {identity.pid};
        Trans(before, signalled, Now());
        return true;
      }
      ok := delivery.Sent?;
    }

    /** What every loop of the kill phase brings about: whoever is still tracked has been sent SIGKILL in it. */
    ghost predicate AllKilled(from: nat, todo: set<Identity>)
      reads this
    {
      forall id :: Tracked(Now(), id) && id !in todo ==> SentSince(sent, from, id.pid, Kill)
    }

    method KillAll() returns (ok: bool)
      requires Valid(Now())
      modifies this`os, this`active, this`stopRequests, this`sent, this`resumed, this`errors
      ensures Base(old(Now()), Now()) && Calm(old(Now()), Now())
      ensures old(errors) <= errors && (ok <==> errors == old(errors))
      ensures OnlySent(old(sent), sent, Kill, old(active.Keys))
      ensures ok ==> AllKilled(|old(sent)|, {})
    {
      ghost var before, log := Now(), sent;
      ok := true;
      var todo := active.Values;
      while todo != {}
        invariant Base(before, Now()) && Calm(before, Now())
        invariant forall id :: id in todo ==> Tracked(before, id)
        invariant old(errors) <= errors && (ok <==> errors == old(errors))
        invariant OnlySent(log, sent, Kill, before.active.Keys)
        invariant ok ==> AllKilled(|log|, todo)
      {
        var identity :| identity in todo;
        ghost var start, logged := Now(), sent;
        assert Tracked(before, identity);
        FreshWhileUnchanged(before, start, identity);
        var done := SignalIdentity(identity, Kill);
        if ok && done { KillLogged(start, Now(), logged, sent, |log|, todo, identity); }
        Trans(before, start, Now());
        ok := ok && done;
        todo := todo - {identity};
      }
    }

    /** One of the confirmation loop's identities: forget it if it is gone, signal it again if not. */
    method ConfirmExit(identity: Identity) returns (ok: bool)
      requires Valid(Now()) && Born(os, identity)
      modifies this`os, this`active, this`stopRequests, this`sent, this`resumed, this`errors
      ensures Base(old(Now()), Now())
      ensures old(Fresh(Now(), identity)) ==> Calm(old(Now()), Now())
      ensures old(errors) <= errors && (ok <==> errors == old(errors))
      ensures sent == old(sent) || sent == old(sent) + [Sending(identity.pid, Kill)]
      ensures ok && Tracked(Now(), identity) ==> sent != old(sent)
    {
      ghost var before := Now();
      var status, gone, inspected := Inspect(identity);
      ghost var seen := Now();
      if status.None? { return inspected; }
      ok := SignalIdentity(identity, Kill);
      BaseTrans(before, seen, Now());
      if Fresh(before, identity) { CalmTrans(before, seen, Now()); }
    }

    /** One turn of the confirmation loop. */
    method ConfirmExits() returns (ok: bool)
      requires Valid(Now())
      modifies this`os, this`active, this`stopRequests, this`sent, this`resumed, this`errors
      ensures Base(old(Now()), Now()) && Calm(old(Now()), Now())
      ensures old(errors) <= errors && (ok <==> errors == old(errors))
      ensures OnlySent(old(sent), sent, Kill, old(active.Keys))
      ensures ok ==> AllKilled(|old(sent)|, {})
    {
      ghost var before, log := Now(), sent;
      ok := true;
      var todo := active.Values;
      while todo != {}
        invariant Base(before, Now()) && Calm(before, Now())
        invariant forall id :: id in todo ==> Tracked(before, id)
        invariant old(errors) <= errors && (ok <==> errors == old(errors))
        invariant OnlySent(log, sent, Kill, before.active.Keys)
        invariant ok ==> AllKilled(|log|, todo)
      {
        var identity :| identity in todo;
        ghost var start, logged := Now(), sent;
        assert Tracked(before, identity);
        FreshWhileUnchanged(before, start, identity);
        var done := ConfirmExit(identity);
        if ok && done { KillLogged(start, Now(), logged, sent, |log|, todo, identity); }
        Trans(before, start, Now());
        ok := ok && done;
        todo := todo - {identity};
      }
    }

    /**
     The freeze: passes until two in a row are stable, at most as many as the deadline leaves room for.
     `history` says of each pass whether it was stable.
     */
    method Freeze(passes: nat, fuel: nat) returns (settled: bool, ok: bool, ghost history: seq<bool>)
      requires Valid(Now())
      modifies this`os, this`active, this`stopRequests, this`revision, this`sent, this`resumed, this`errors
      ensures Base(old(Now()), Now())
      ensures ok && settled ==> Contained(Now())
      ensures settled <==> Settled(history)
      ensures |history| <= passes && (settled || |history| == passes)
      ensures forall i :: 0 <= i < |history| ==> !Settled(history[..i])
      ensures old(errors) <= errors && (ok <==> errors == old(errors))
      ensures old(sent) <= sent && forall k :: |old(sent)| <= k < |sent| ==> sent[k].signal.Stop?
    {
      ghost var before := Now();
      ok, history := true, [];
      var stablePasses, turn := 0, 0;
      Reflexive(Now());
      while turn < passes && stablePasses < 2
        invariant Base(before, Now()) && stablePasses <= 2 && turn <= passes
        invariant stablePasses >= 1 ==> Halted(Now())
        invariant ok && stablePasses == 2 ==> Contained(Now())
        invariant |history| == turn && (stablePasses == 2 <==> Settled(history))
        invariant stablePasses == 1 ==> history != [] && history[|history| - 1]
        invariant stablePasses == 0 ==> history == [] || !history[|history| - 1]
        invariant forall i :: 0 <= i < |history| ==> !Settled(history[..i])
        invariant old(errors) <= errors && (ok <==> errors == old(errors))
        invariant old(sent) <= sent && forall k :: |old(sent)| <= k < |sent| ==> sent[k].signal.Stop?
      {
        ghost var start := Now();
        var stable, passed;
        ghost var found;
        stable, passed, found := FreezePass(fuel);
        BaseTrans(before, start, Now());
        ok := ok && passed;
        HistoryGrows(history, stable);
        history := history + [stable];
        if stable { stablePasses := stablePasses + 1; } else { stablePasses := 0; }
        if stablePasses < 2 {
          ghost var awake := Now();
          Interference();
          BaseTrans(before, awake, Now());
          if stablePasses >= 1 { HaltedKept(awake, Now()); }
        }
        turn := turn + 1;
      }
      settled := stablePasses == 2;
    }

    /**
     The killing: everything tracked is sent SIGKILL, and again in each turn of the confirmation loop,
     until nothing is tracked or the deadline's number of turns is used up.
     */
    method Extinguish(polls: nat) returns (ok: bool, ghost rounds: nat)
      requires Valid(Now())
      modifies this`os, this`active, this`stopRequests, this`sent, this`resumed, this`errors
      ensures Base(old(Now()), Now()) && Calm(old(Now()), Now())
      ensures old(errors) <= errors && (ok <==> errors == old(errors))
      ensures OnlySent(old(sent), sent, Kill, old(active.Keys))
      ensures ok ==> AllKilled(|old(sent)|, {})
      ensures rounds <= polls && (active == map[] || rounds == polls)
    {
      ghost var before, log := Now(), sent;
      ok := KillAll();
      rounds := 0;
      var poll := 0;
      while active != map[] && poll < polls
        invariant Base(before, Now()) && Calm(before, Now())
        invariant old(errors) <= errors && (ok <==> errors == old(errors))
        invariant OnlySent(log, sent, Kill, before.active.Keys)
        invariant ok ==> AllKilled(|log|, {})
        invariant rounds == poll <= polls
      {
        ghost var start, logged := Now(), sent;
        var confirmed := ConfirmExits();
        OnlySentTrans(log, logged, sent, Kill, before.active.Keys, start.active.Keys, before, start);
        if confirmed { KilledSince(Now(), sent, |log|, |logged|); }
        Trans(before, start, Now());
        ok := ok && confirmed;
        ghost var awake := Now();
        Interference();
        Trans(before, awake, Now());
        poll, rounds := poll + 1, rounds + 1;
      }
    }

    /**
     `passes` and `polls` are the numbers of turns the two deadlines leave room for. `frozen` is the
     moment the freeze ended, and `froze` says that it settled and no call of it failed. Then the family
     of every process tracked was stopped and tracked in full, and stays so while it is killed, whether
     or not that succeeds: nothing is set running and nothing forks. Until `log` only SIGSTOP is sent,
     from then on only SIGKILL, and unless a call fails everything still tracked has been sent it. If
     nothing failed, all of the family is dead; and success is reported unless something went wrong.
     */
    method ContainUntil(passes: nat, polls: nat, fuel: nat)
      returns (ok: bool, froze: bool, ghost frozen: Snap, ghost log: nat, ghost troubled: bool)
      requires Valid(Now())
      modifies this`os, this`active, this`stopRequests, this`revision, this`sent, this`resumed, this`errors
      ensures Base(old(Now()), frozen) && Base(frozen, Now()) && Calm(frozen, Now())
      ensures frozen.revision == revision
      ensures froze ==> Contained(frozen) && Contained(Now())
      ensures ok ==> active == map[] && (froze || frozen.active == map[])
      ensures ok && froze ==>
                forall line, i :: 0 <= i < |line| && Line(frozen.os, line) && Tracked(frozen, line[0]) ==>
                                    !Alive(os, line[i])
      ensures |old(sent)| <= log <= |sent| && old(sent) <= sent
      ensures forall k :: |old(sent)| <= k < log ==> sent[k].signal.Stop?
      ensures forall k :: log <= k < |sent| ==> sent[k].signal.Kill? && sent[k].pid in frozen.active
      ensures troubled ==> old(errors) < errors
      ensures !troubled ==> AllKilled(log, {})
      ensures ok <==> errors == old(errors) && active == map[] && (froze || frozen.active == map[])
    {
      var settled, frozenOk;
      ghost var history;
      settled, frozenOk, history := Freeze(passes, fuel);
      froze := frozenOk && settled;
      ok := froze || (frozenOk && active == map[]);
      frozen, log := Now(), |sent|;
      ghost var stops := sent;
      var killed;
      ghost var rounds;
      killed, rounds := Extinguish(polls);
      assert forall k :: 0 <= k < log ==> sent[k] == stops[k];
      troubled := !killed;
      ok := ok && killed && active == map[];
      if froze {
        ContainedKept(frozen, Now());
        if ok { FamilyDead(frozen, Now()); }
      }
    }
  }

  /** The last two passes were stable. */
  predicate Settled(history: seq<bool>) {
    |history| >= 2 && history[|history| - 1] && history[|history| - 2]
  }

  lemma HistoryGrows(history: seq<bool>, stable: bool)
    requires !Settled(history) && forall i :: 0 <= i < |history| ==> !Settled(history[..i])
    ensures forall i :: 0 <= i < |history + [stable]| ==> !Settled((history + [stable])[..i])
  {
    forall i | 0 <= i < |history + [stable]| ensures !Settled((history + [stable])[..i]) {
      if i < |history| {
        assert (history + [stable])[..i] == history[..i];
      } else {
        assert (history + [stable])[..i] == history;
      }
    }
  }

  /** One identity more has been signalled, or is tracked no longer. */
  lemma KillLogged(s: Snap, t: Snap, a: seq<Sending>, b: seq<Sending>, from: nat, todo: set<Identity>, x: Identity)
    requires Valid(s) && Base(s, t) && s.revision == t.revision && from <= |a|
    requires b == a || b == a + [Sending(x.pid, Kill)]
    requires Tracked(t, x) ==> b != a
    requires forall id :: Tracked(s, id) && id !in todo ==> SentSince(a, from, id.pid, Kill)
    ensures forall id :: Tracked(t, id) && id !in todo - {x} ==> SentSince(b, from, id.pid, Kill)
  {
    forall id | Tracked(t, id) && id !in todo - {x} ensures SentSince(b, from, id.pid, Kill) {
      if id == x {
        assert b[|a|] == Sending(x.pid, Kill);
      } else {
        assert Tracked(s, id);
        SentStill(a, b, from, id.pid, Kill);
      }
    }
  }

  lemma KilledSince(s: Snap, sent: seq<Sending>, from: nat, later: nat)
    requires from <= later
    requires forall id :: Tracked(s, id) ==> SentSince(sent, later, id.pid, Kill)
    ensures forall id :: Tracked(s, id) ==> SentSince(sent, from, id.pid, Kill)
  {
    forall id | Tracked(s, id) ensures SentSince(sent, from, id.pid, Kill) {
      var k :| later <= k < |sent| && sent[k] == Sending(id.pid, Kill);
    }
  }

  lemma OnlySentTrans(a: seq<Sending>, b: seq<Sending>, c: seq<Sending>, signal: Signal, p: set<nat>, q: set<nat>,
                      s: Snap, t: Snap)
    requires OnlySent(a, b, signal, p) && OnlySent(b, c, signal, q)
    requires Valid(t) && Base(s, t) && s.revision == t.revision && p == s.active.Keys && q == t.active.Keys
    ensures OnlySent(a, c, signal, p)
  {
    forall k | |a| <= k < |c| ensures c[k].signal == signal && c[k].pid in p {
      if k < |b| {
        assert c[k] == b[k];
      } else {
        assert Tracked(t, t.active[c[k].pid]);
      }
    }
  }

  lemma HaltedKept(s: Snap, t: Snap)
    requires Valid(s) && Base(s, t) && Calm(s, t) && s.revision == t.revision && Halted(s)
    ensures Halted(t)
  {
    forall id | Tracked(t, id) && Alive(t.os, id) ensures Frozen(t.os, id) {
      assert Tracked(s, id) && Alive(s.os, id);
    }
  }

  /** While nothing is recorded and nothing resumed, containment lasts. */
  lemma ContainedKept(s: Snap, t: Snap)
    requires Valid(s) && Base(s, t) && Calm(s, t) && s.revision == t.revision && Contained(s)
    ensures Contained(t)
  {
    HaltedKept(s, t);
    forall p | Tracked(t, p) ensures Covered(t, p) {
      assert Tracked(s, p);
      CoveredKept(s, t, p);
    }
  }

  /** Nothing has been recorded, so a process number still belongs to the identity it had. */
  lemma FreshWhileUnchanged(s: Snap, t: Snap, id: Identity)
    requires Valid(s) && Base(s, t) && Tracked(s, id)
    ensures s.revision == t.revision ==> Fresh(t, id)
    ensures Born(t.os, id) && LAUNCHD < id.pid
  {
    if s.revision == t.revision && id.pid in t.active {
      assert Tracked(t, t.active[id.pid]);
    }
  }

  /** A process number whose identity is tracked no longer is nobody's, unless something was recorded. */
  lemma NumberFree(s: Snap, t: Snap, pid: nat)
    requires Valid(s) && Base(s, t) && s.revision == t.revision
    requires pid in s.active ==> !Tracked(t, s.active[pid])
    ensures pid !in t.active
  {
    assert forall id :: Tracked(t, id) ==> Tracked(s, id);
    assert pid in t.active ==> Tracked(t, t.active[pid]);
  }

  lemma StillFrozen(s: Snap, t: Snap, todo: set<Identity>, x: Identity)
    requires Valid(s) && Base(s, t) && Calm(s, t) && s.revision == t.revision
    requires forall id :: Tracked(s, id) && id !in todo && Alive(s.os, id) ==> Frozen(s.os, id)
    requires Alive(t.os, x) ==> Frozen(t.os, x)
    ensures forall id :: Tracked(t, id) && id !in todo - {x} && Alive(t.os, id) ==> Frozen(t.os, id)
  {
    forall id | Tracked(t, id) && id !in todo - {x} && Alive(t.os, id) ensures Frozen(t.os, id) {
      if id != x { assert Tracked(s, id) && Alive(s.os, id); }
    }
  }

  lemma CoveredKept(s: Snap, t: Snap, p: Identity)
    requires Valid(s) && Base(s, t) && Calm(s, t) && s.revision == t.revision
    requires Tracked(s, p) && (Alive(s.os, p) ==> Frozen(s.os, p)) && Covered(s, p)
    ensures Covered(t, p)
  {
    forall c | ChildOf(t.os, c, p) ensures Tracked(t, c) {
      assert Tracked(t, p) && Alive(s.os, p);
      assert ChildOf(s.os, c, p);
    }
  }

  lemma ParentVisited(s: Snap, a: Snap, t: Snap, x: Identity, todo: set<Identity>)
    requires Valid(s) && Base(s, a) && Base(a, t) && Calm(s, a) && Calm(a, t)
    requires s.revision == t.revision && Halted(s)
    requires forall p :: Tracked(a, p) && p !in todo ==> Covered(a, p)
    requires Tracked(a, x) && Frozen(a.os, x) ==> Covered(t, x)
    ensures forall p :: Tracked(t, p) && p !in todo - {x} ==> Covered(t, p)
  {
    HaltedKept(s, a);
    forall p | Tracked(t, p) && p !in todo - {x} ensures Covered(t, p) {
      assert Tracked(a, p);
      if p != x {
        CoveredKept(a, t, p);
      } else if !Alive(a.os, x) {
        assert Born(a.os, x);
      }
    }
  }

  lemma StillCovered(s: Snap, a: Snap, t: Snap)
    requires Valid(s) && Base(s, a) && Base(a, t) && Calm(s, a) && Calm(a, t)
    requires s.revision == t.revision && Halted(s) && Halted(t)
    requires forall p :: Tracked(a, p) ==> Covered(a, p)
    ensures Contained(t)
  {
    HaltedKept(s, a);
    forall p | Tracked(t, p) ensures Covered(t, p) {
      assert Tracked(a, p);
      CoveredKept(a, t, p);
    }
  }

  /** With nothing left to track, everything that was in the contained family is dead. */
  lemma FamilyDead(s: Snap, t: Snap)
    requires Valid(s) && Base(s, t) && Contained(s) && t.active == map[]
    ensures forall line, i :: 0 <= i < |line| && Line(s.os, line) && Tracked(s, line[0]) ==> !Alive(t.os, line[i])
  {
    forall line, i | 0 <= i < |line| && Line(s.os, line) && Tracked(s, line[0]) ensures !Alive(t.os, line[i]) {
      DescendantsContained(s, line, i);
    }
  }

  /** A child of a parent that stayed stopped was its child all along. */
  lemma ChildAllAlong(s: Snap, m: Snap, t: Snap, p: Identity, c: Identity)
    requires Valid(s) && Base(s, m) && Base(m, t) && Calm(s, m) && Calm(m, t) && s.revision == t.revision
    requires Tracked(s, p) && Frozen(s.os, p) && ChildOf(t.os, c, p)
    ensures ChildOf(s.os, c, p) && ChildOf(m.os, c, p)
  {
    assert Tracked(m, p) && Tracked(t, p);
    assert Frozen(m.os, p);
  }

  /** If the identity first seen at a process number is no longer the parent's child, nothing there is. */
  lemma OnlyChildAt(s: Snap, m: Snap, t: Snap, p: Identity, info: Info)
    requires Valid(s) && Base(s, m) && Base(m, t) && Calm(s, m) && Calm(m, t)
    requires InfoOf(s.os, info.identity.pid) == Some(info)
    requires !ChildOf(m.os, info.identity, p)
    ensures s.revision == t.revision && Tracked(s, p) && Frozen(s.os, p) ==> CoveredAt(t, p, info.identity.pid)
  {
    if s.revision == t.revision && Tracked(s, p) && Frozen(s.os, p) {
      forall c: Identity | c.pid == info.identity.pid ensures !ChildOf(t.os, c, p) {
        if ChildOf(t.os, c, p) { ChildAllAlong(s, m, t, p, c); }
      }
    }
  }

  lemma NotConfirmed(s: Snap, c: Snap, t: Snap, p: Identity, info: Info)
    requires Valid(s) && Base(s, c) && Calm(s, c) && InfoOf(s.os, info.identity.pid) == Some(info)
    requires exists m :: Between(c, m, t) &&
               (!Alive(m.os, info.identity) || m.os.procs[info.identity.pid].parent != p.pid)
    ensures s.revision == t.revision && Tracked(s, p) && Frozen(s.os, p) ==> CoveredAt(t, p, info.identity.pid)
  {
    var m :| Between(c, m, t) && (!Alive(m.os, info.identity) || m.os.procs[info.identity.pid].parent != p.pid);
    Trans(s, c, m);
    OnlyChildAt(s, m, t, p, info);
  }

  lemma CoveredEverywhere(s: Snap, p: Identity)
    requires forall pid :: CoveredAt(s, p, pid)
    ensures Covered(s, p)
  {
    forall c | ChildOf(s.os, c, p) ensures Tracked(s, c) { assert CoveredAt(s, p, c.pid); }
  }

  /** One turn of the enumeration covers its process number and keeps the others covered. */
  lemma ChildVisited(s: Snap, a: Snap, b: Snap, t: Snap, p: Identity, pid: nat, todo: set<nat>)
    requires Valid(s) && Base(s, a) && Base(a, b) && Base(b, t) && Calm(s, a) && Calm(a, b) && Calm(b, t)
    requires s.revision == t.revision && Tracked(s, p) && Frozen(s.os, p)
    requires forall q :: q !in todo ==> CoveredAt(a, p, q)
    requires Tracked(b, p) && Frozen(b.os, p) ==> CoveredAt(t, p, pid)
    ensures forall q :: q !in todo - {pid} ==> CoveredAt(t, p, q)
  {
    Trans(a, b, t);
    forall q | q !in todo - {pid} ensures CoveredAt(t, p, q) {
      forall c: Identity | c.pid == q && ChildOf(t.os, c, p) ensures Tracked(t, c) {
        assert Alive(b.os, p) && Alive(a.os, p);
        assert Tracked(a, p) && Tracked(b, p);
        assert Frozen(a.os, p);
        assert Frozen(b.os, p);
        if q != pid { CoveredAtKept(a, t, p, q); }
      }
    }
  }

  lemma ResumeKeeps(s: Snap, os: Os, pid: nat)
    requires Valid(s) && (os == s.os || os == Resumed(s.os, pid))
    ensures Base(s, s.(os := os))
    ensures pid !in s.active ==> Calm(s, s.(os := os))
  {
    ResumedLater(s.os, pid);
  }
}
