/**
 Whole runs of the lifecycle protocol of one peer: its workers change at any moment, connections are
 registered, claimed and lost, and a page may arrive long after it was built.
 */
module LifecycleRuns {
  import opened Lifecycle

  datatype Option<T> = None | Some(value: T)
  datatype Reply = Accepted(revision: nat) | Refused

  /** The first four fields are the broker's view of a connection, the rest the peer's. */
  datatype Session = Session(
    initial: nat, applied: nat, high: nat, ready: bool,
    base: nat, through: nat, page: Option<Page>, reply: Option<Reply>)

  /** A session is named by the lease revision it was registered with. */
  type Lease = nat

  /** `high` is the peer's durable counter, `observed` the part of it its host has announced. */
  datatype State = State(
    workers: map<Worker, Record>, high: nat, observed: nat,
    lease: Lease, online: bool, active: Lease, cursor: nat, rows: map<Worker, Record>,
    sessions: map<Lease, Session>)

  datatype PeerStep = Change(worker: Worker, data: nat) | Observe(revision: nat)
  datatype LeaseStep = Register | Expire | Claim(baseline: nat, revision: nat) | Heartbeat(lease: Lease)
  datatype SyncStep =
    | Send(lease: Lease, page: Page)
    | Deliver(lease: Lease, authorized: bool)
    | Receive(lease: Lease)
    | Aim(lease: Lease)
  datatype Step = Peer(peer: PeerStep) | Leasing(leasing: LeaseStep) | Sync(sync: SyncStep)

  const START := State(map[], 0, 0, 0, false, 0, 0, map[], map[])

  // Storing a page

  /** The rows after the first `n` workers of a page have been written. */
  function Overlay(rows: map<Worker, Record>, workers: seq<Snapshot>, n: nat): map<Worker, Record>
    requires n <= |workers|
  {
    if n == 0 then rows else Overlay(rows, workers, n - 1)[workers[n - 1].worker := workers[n - 1].record]
  }

  predicate Forward(rows: map<Worker, Record>, workers: seq<Snapshot>) {
    forall s :: s in workers && s.worker in rows ==> rows[s.worker].revision < s.record.revision
  }

  /** Rows the page does not mention stay; rows it mentions hold what it says. */
  lemma {:induction false} OverlayAt(rows: map<Worker, Record>, p: Page, n: nat, w: Worker)
    requires ValidPage(p) && n <= |p.workers|
    ensures forall i: nat :: i < n && p.workers[i].worker == w ==>
              w in Overlay(rows, p.workers, n) && Overlay(rows, p.workers, n)[w] == p.workers[i].record
    ensures (forall i: nat :: i < n ==> p.workers[i].worker != w) ==>
              && (w in Overlay(rows, p.workers, n) <==> w in rows)
              && (w in rows ==> Overlay(rows, p.workers, n)[w] == rows[w])
  {
    if n > 0 {
      OverlayAt(rows, p, n - 1, w);
      assert Entry(p.workers, p.base, p.through, n - 1);
    }
  }

  /** The broker's durable rows and cursor for one peer. */
  class Store {
    var lease: Lease
    var online: bool
    var active: Lease
    var cursor: nat
    var rows: map<Worker, Record>

    /** One transaction: `authorized` says which workers the peer may report. */
    method ApplyPage(session: Lease, p: Page, authorized: set<Worker>) returns (r: Result<nat>)
      modifies this`cursor, this`rows
      ensures r.Ok? <==>
                && ValidPage(p) && online && lease == session && active == session && old(cursor) == p.base
                && Forward(old(rows), p.workers)
                && forall s :: s in p.workers ==> s.worker in authorized
      ensures r.Ok? ==> r.value == cursor == Applied(p) && rows == Overlay(old(rows), p.workers, |p.workers|)
      ensures r.Err? ==> cursor == old(cursor) && rows == old(rows)
    {
      var valid := Validate(p);
      if !valid || !online || lease != session || active != session || cursor != p.base { return Err; }
      var written := rows;
      for i := 0 to |p.workers|
        modifies {}
        invariant written == Overlay(rows, p.workers, i)
        invariant forall k :: 0 <= k < i ==> p.workers[k].worker in authorized
        invariant forall k :: 0 <= k < i && p.workers[k].worker in rows ==>
                    rows[p.workers[k].worker].revision < p.workers[k].record.revision
      {
        var snapshot := p.workers[i];
        assert snapshot in p.workers;
        if snapshot.worker !in authorized { return Err; }
        OverlayAt(rows, p, i, snapshot.worker);
        assert Entry(p.workers, p.base, p.through, i);
        if snapshot.worker in written && snapshot.record.revision <= written[snapshot.worker].revision { return Err; }
        written := written[snapshot.worker := snapshot.record];
      }
      rows, cursor := written, Applied(p);
      r := Ok(cursor);
    }
  }

  // The steps

  function PeerNext(s: State, step: PeerStep): State {
    match step
    case Change(w, data) =>
      if s.high < MAX_REVISION then
        s.(workers := s.workers[w := Record(s.high + 1, data)], high := s.high + 1)
      else s
    case Observe(revision) =>
      if s.observed < revision <= s.high then s.(observed := revision) else s
  }

  ghost function LeaseNext(s: State, step: LeaseStep): State {
    match step
    case Register => s.(lease := s.lease + 1, online := true)
    case Expire => s.(lease := s.lease + 1, online := false)
    case Claim(baseline, revision) =>
      if s.online && s.lease !in s.sessions && s.cursor <= baseline <= revision <= s.observed then
        s.(active := s.lease,
           sessions := s.sessions[s.lease := Session(revision, s.cursor, revision, s.cursor == revision,
                                                     s.cursor, revision, None, None)])
      else s
    case Heartbeat(k) =>
      if k in s.sessions && s.online && s.lease == k && s.cursor <= s.sessions[k].high then s.(active := k) else s
  }

  /** The page a peer builds from its workers as they are now. */
  ghost predicate ExactNow(p: Page, workers: map<Worker, Record>)
    requires ValidPage(p)
  {
    forall x :: x in p.workers <==>
      x.worker in workers && workers[x.worker] == x.record && p.base < x.record.revision <= Applied(p)
  }

  ghost predicate CanSend(s: State, k: Lease, p: Page) {
    && k in s.sessions && s.sessions[k].page.None? && s.sessions[k].base < s.sessions[k].through
    && ValidPage(p) && p.base == s.sessions[k].base && p.through == s.sessions[k].through
    && ExactNow(p, s.workers)
  }

  predicate Waiting(s: State, k: Lease) {
    k in s.sessions && s.sessions[k].page.Some? && s.sessions[k].reply.None?
  }

  predicate Holds(s: State, k: Lease) {
    s.online && s.lease == k && s.active == k
  }

  /** Every check the broker makes of a waiting page, in its handler and in its store. */
  predicate Accepts(s: State, k: Lease)
    requires Waiting(s, k)
  {
    var x, p := s.sessions[k], s.sessions[k].page.value;
    && ValidPage(p) && p.base == x.applied && x.high <= p.through
    && Holds(s, k) && s.cursor == p.base && Forward(s.rows, p.workers)
  }

  ghost function SyncNext(s: State, step: SyncStep): State {
    match step
    case Send(k, p) =>
      if CanSend(s, k, p) then s.(sessions := s.sessions[k := s.sessions[k].(page := Some(p))]) else s
    case Deliver(k, authorized) =>
      if !Waiting(s, k) then s
      else if authorized && Accepts(s, k) then Delivered(s, k)
      else s.(sessions := s.sessions[k := s.sessions[k].(reply := Some(Refused))])
    case Receive(k) =>
      if k in s.sessions && s.sessions[k].page.Some? && s.sessions[k].reply.Some? &&
           s.sessions[k].reply.value.Accepted? then
        var x := s.sessions[k];
        s.(sessions := s.sessions[k := x.(base := x.reply.value.revision, page := None, reply := None)])
      else s
    case Aim(k) =>
      if k in s.sessions && s.sessions[k].page.None? && s.sessions[k].base == s.sessions[k].through < s.observed then
        s.(sessions := s.sessions[k := s.sessions[k].(through := s.observed)])
      else s
  }

  function Delivered(s: State, k: Lease): State
    requires Waiting(s, k) && Accepts(s, k)
  {
    var x, p := s.sessions[k], s.sessions[k].page.value;
    s.(cursor := Applied(p),
       rows := Overlay(s.rows, p.workers, |p.workers|),
       sessions := s.sessions[k := x.(applied := Applied(p), high := p.through,
                                      ready := x.ready || x.initial <= Applied(p),
                                      reply := Some(Accepted(Applied(p))))])
  }

  ghost function Next(s: State, step: Step): State {
    match step
    case Peer(x) => PeerNext(s, x)
    case Leasing(x) => LeaseNext(s, x)
    case Sync(x) => SyncNext(s, x)
  }

  ghost function Exec(s: State, steps: seq<Step>): State {
    if steps == [] then s else Next(Exec(s, steps[..|steps| - 1]), steps[|steps| - 1])
  }

  // The invariant

  ghost predicate Counters(s: State) {
    s.cursor <= s.observed <= s.high <= MAX_REVISION && s.active <= s.lease
  }

  /** A newer record of the same worker, or the same one. */
  predicate Follows(earlier: Record, now: Record) {
    earlier.revision < now.revision || earlier == now
  }

  /** The broker has a worker's record exactly when the cursor has passed it, and else an older one or none. */
  ghost predicate WorkerInv(s: State, w: Worker) {
    && (w in s.workers ==> 0 < s.workers[w].revision <= s.high)
    && (w in s.workers && s.workers[w].revision <= s.cursor ==> w in s.rows && s.rows[w] == s.workers[w])
    && (w in s.rows ==> w in s.workers && s.rows[w].revision <= s.cursor && Follows(s.rows[w], s.workers[w]))
  }

  ghost predicate PairInv(s: State, v: Worker, w: Worker) {
    v in s.workers && w in s.workers && v != w ==> s.workers[v].revision != s.workers[w].revision
  }

  ghost predicate SessionInv(s: State, k: Lease) {
    k in s.sessions ==>
      var x := s.sessions[k];
      && k <= s.lease
      && x.initial <= x.high <= x.through <= s.observed
      && x.base <= x.through
      && x.applied <= s.cursor && (s.lease == k ==> s.active == k && x.applied == s.cursor)
      && x.applied <= x.high
      && (x.ready <==> x.initial <= x.applied)
      && (x.page.None? ==> x.reply.None?)
      && (x.reply.None? ==> x.base == x.applied)
      && (x.page.Some? ==> ValidPage(x.page.value) && x.page.value.base == x.base && x.page.value.through == x.through)
      && (x.reply.Some? && x.reply.value.Accepted? ==> x.reply.value.revision == x.applied == Applied(x.page.value))
  }

  /** What a page on its way still says truly of a worker that may have changed since it was built. */
  ghost predicate PageInv(s: State, k: Lease, w: Worker) {
    Waiting(s, k) && ValidPage(s.sessions[k].page.value) ==>
      var p := s.sessions[k].page.value;
      && (w in s.workers && p.base < s.workers[w].revision <= Applied(p) ==> Snapshot(w, s.workers[w]) in p.workers)
      && (forall r :: Snapshot(w, r) in p.workers ==>
           w in s.workers && r.revision <= Applied(p) && Follows(r, s.workers[w]))
  }

  ghost predicate Inv(s: State) {
    && Counters(s)
    && (forall w :: WorkerInv(s, w))
    && (forall v, w :: PairInv(s, v, w))
    && (forall k :: SessionInv(s, k))
    && (forall k, w :: PageInv(s, k, w))
  }

  lemma ChangeKeeps(s: State, w: Worker, data: nat)
    requires Inv(s) && s.high < MAX_REVISION
    ensures Inv(PeerNext(s, Change(w, data)))
  {
    var t := PeerNext(s, Change(w, data));
    forall v ensures WorkerInv(t, v) { assert WorkerInv(s, v); }
    forall u, v ensures PairInv(t, u, v) { assert PairInv(s, u, v) && WorkerInv(s, u) && WorkerInv(s, v); }
    forall k ensures SessionInv(t, k) { assert SessionInv(s, k); }
    forall k, v ensures PageInv(t, k, v) { ChangeKeepsPage(s, w, data, k, v); }
  }

  /** A page on its way reaches no further than the counter did, so a change leaves it as true as it was. */
  lemma ChangeKeepsPage(s: State, w: Worker, data: nat, k: Lease, v: Worker)
    requires Inv(s) && s.high < MAX_REVISION
    ensures PageInv(PeerNext(s, Change(w, data)), k, v)
  {
    assert PageInv(s, k, v) && SessionInv(s, k) && WorkerInv(s, v);
    if Waiting(s, k) { AppliedForward(s.sessions[k].page.value); }
  }

  lemma PeerKeeps(s: State, step: PeerStep)
    requires Inv(s)
    ensures Inv(PeerNext(s, step))
  {
    var t := PeerNext(s, step);
    if step.Change? && s.high < MAX_REVISION {
      ChangeKeeps(s, step.worker, step.data);
    } else {
      forall w ensures WorkerInv(t, w) { assert WorkerInv(s, w); }
      forall v, w ensures PairInv(t, v, w) { assert PairInv(s, v, w); }
      forall k ensures SessionInv(t, k) { assert SessionInv(s, k); }
      forall k, w ensures PageInv(t, k, w) { assert PageInv(s, k, w); }
    }
  }

  lemma ClaimKeeps(s: State, baseline: nat, revision: nat)
    requires Inv(s)
    ensures Inv(LeaseNext(s, Claim(baseline, revision)))
  {
    var t := LeaseNext(s, Claim(baseline, revision));
    forall w ensures WorkerInv(t, w) { assert WorkerInv(s, w); }
    forall v, w ensures PairInv(t, v, w) { assert PairInv(s, v, w); }
    forall k ensures SessionInv(t, k) { assert SessionInv(s, k); }
    forall k, w ensures PageInv(t, k, w) { assert PageInv(s, k, w); }
  }

  lemma LeaseKeeps(s: State, step: LeaseStep)
    requires Inv(s)
    ensures Inv(LeaseNext(s, step))
  {
    if step.Claim? {
      ClaimKeeps(s, step.baseline, step.revision);
    } else {
      var t := LeaseNext(s, step);
      forall w ensures WorkerInv(t, w) { assert WorkerInv(s, w); }
      forall v, w ensures PairInv(t, v, w) { assert PairInv(s, v, w); }
      forall k ensures SessionInv(t, k) { assert SessionInv(s, k); }
      forall k, w ensures PageInv(t, k, w) { assert PageInv(s, k, w); }
    }
  }

  lemma DeliveredKeeps(s: State, k: Lease)
    requires Inv(s) && Waiting(s, k) && Accepts(s, k)
    ensures Inv(Delivered(s, k))
  {
    var t := Delivered(s, k);
    assert SessionInv(s, k);
    AppliedForward(s.sessions[k].page.value);
    forall w ensures WorkerInv(t, w) { RowWritten(s, k, w); }
    forall v, w ensures PairInv(t, v, w) { assert PairInv(s, v, w); }
    forall j ensures SessionInv(t, j) { assert SessionInv(s, j); }
    forall j, w ensures PageInv(t, j, w) { assert PageInv(s, j, w); }
  }

  lemma RowWritten(s: State, k: Lease, w: Worker)
    requires Inv(s) && Waiting(s, k) && Accepts(s, k)
    ensures WorkerInv(Delivered(s, k), w)
  {
    var p := s.sessions[k].page.value;
    assert WorkerInv(s, w) && PageInv(s, k, w);
    AppliedForward(p);
    OverlayAt(s.rows, p, |p.workers|, w);
    if i: nat :| i < |p.workers| && p.workers[i].worker == w {
      assert Snapshot(w, p.workers[i].record) in p.workers;
      assert Entry(p.workers, p.base, p.through, i);
    }
  }

  ghost function WithSession(s: State, k: Lease, x: Session): State {
    s.(sessions := s.sessions[k := x])
  }

  lemma SessionChanged(s: State, k: Lease, x: Session)
    requires Inv(s)
    requires SessionInv(WithSession(s, k, x), k) && forall w :: PageInv(WithSession(s, k, x), k, w)
    ensures Inv(WithSession(s, k, x))
  {
    var t := WithSession(s, k, x);
    forall w ensures WorkerInv(t, w) { assert WorkerInv(s, w); }
    forall v, w ensures PairInv(t, v, w) { assert PairInv(s, v, w); }
    forall j ensures SessionInv(t, j) { assert SessionInv(s, j); }
    forall j, w ensures PageInv(t, j, w) { assert PageInv(s, j, w); }
  }

  lemma SendKeeps(s: State, k: Lease, p: Page)
    requires Inv(s) && CanSend(s, k, p)
    ensures Inv(SyncNext(s, Send(k, p)))
  {
    assert SessionInv(s, k);
    var x := s.sessions[k].(page := Some(p));
    AppliedForward(p);
    forall w ensures PageInv(WithSession(s, k, x), k, w) {
      forall r | Snapshot(w, r) in p.workers ensures w in s.workers && r.revision <= Applied(p) && s.workers[w] == r {}
    }
    SessionChanged(s, k, x);
  }

  lemma SyncKeeps(s: State, step: SyncStep)
    requires Inv(s)
    ensures Inv(SyncNext(s, step))
  {
    var k := step.lease;
    if SyncNext(s, step) != s {
      assert SessionInv(s, k);
      match step
      case Send(_, p) => SendKeeps(s, k, p);
      case Deliver(_, authorized) =>
        if authorized && Accepts(s, k) {
          DeliveredKeeps(s, k);
        } else {
          SessionChanged(s, k, s.sessions[k].(reply := Some(Refused)));
        }
      case Receive(_) =>
        AppliedForward(s.sessions[k].page.value);
        SessionChanged(s, k, s.sessions[k].(base := s.sessions[k].reply.value.revision, page := None, reply := None));
      case Aim(_) => SessionChanged(s, k, s.sessions[k].(through := s.observed));
    }
  }

  lemma {:induction false} RunKeeps(s: State, steps: seq<Step>)
    requires Inv(s)
    ensures Inv(Exec(s, steps))
  {
    if steps != [] {
      var before, step := Exec(s, steps[..|steps| - 1]), steps[|steps| - 1];
      RunKeeps(s, steps[..|steps| - 1]);
      match step
      case Peer(x) => PeerKeeps(before, x);
      case Leasing(x) => LeaseKeeps(before, x);
      case Sync(x) => SyncKeeps(before, x);
    }
  }

  lemma StartInv()
    ensures Inv(START)
  {
  }

  // What holds in every reachable state

  ghost predicate Reachable(s: State) {
    exists steps :: s == Exec(START, steps)
  }

  lemma ReachableInv(s: State)
    requires Reachable(s)
    ensures Inv(s)
  {
    var steps :| s == Exec(START, steps);
    StartInv();
    RunKeeps(START, steps);
  }

  /**
   A worker's row is its current record exactly when the cursor has reached that record. A row can
   only be an older record of a worker that exists.
   */
  lemma RecordedExactly(s: State, w: Worker)
    requires Reachable(s)
    ensures && (w in s.workers ==> (w in s.rows && s.rows[w] == s.workers[w] <==> s.workers[w].revision <= s.cursor))
            && (w in s.rows ==> w in s.workers && Follows(s.rows[w], s.workers[w]))
  {
    ReachableInv(s);
    assert WorkerInv(s, w);
  }

  lemma CaughtUp(s: State)
    requires Reachable(s)
    ensures s.cursor == s.high ==> s.rows == s.workers
  {
    ReachableInv(s);
    if s.cursor == s.high {
      forall w ensures w in s.rows <==> w in s.workers { assert WorkerInv(s, w); }
      forall w | w in s.rows ensures s.rows[w] == s.workers[w] { assert WorkerInv(s, w); }
    }
  }

  /** No check of the broker ever turns away a page of the connection that holds the lease. */
  lemma HolderNeverRefused(s: State, k: Lease)
    requires Reachable(s)
    ensures Waiting(s, k) && s.online && s.lease == k ==> Accepts(s, k)
    ensures k in s.sessions && s.lease == k ==> s.cursor <= s.sessions[k].high
  {
    ReachableInv(s);
    AcceptedAlways(s, k);
  }

  lemma AcceptedAlways(s: State, k: Lease)
    requires Inv(s)
    ensures Waiting(s, k) && s.online && s.lease == k ==> Accepts(s, k)
    ensures k in s.sessions && s.lease == k ==> s.cursor <= s.sessions[k].high
  {
    assert SessionInv(s, k);
    if Waiting(s, k) && s.online && s.lease == k {
      var p := s.sessions[k].page.value;
      forall x | x in p.workers && x.worker in s.rows ensures s.rows[x.worker].revision < x.record.revision {
        var i: nat :| i < |p.workers| && p.workers[i] == x;
        assert Entry(p.workers, p.base, p.through, i) && WorkerInv(s, x.worker);
      }
    }
  }

  /**
   A ready connection's peer has nothing left unrecorded of what it announced on connecting, unless
   it changed since.
   */
  lemma ReadyCovers(s: State, k: Lease, w: Worker)
    requires Reachable(s)
    ensures k in s.sessions && s.sessions[k].ready && w in s.workers &&
              s.workers[w].revision <= s.sessions[k].initial ==>
              w in s.rows && s.rows[w] == s.workers[w]
  {
    ReachableInv(s);
    assert WorkerInv(s, w) && SessionInv(s, k);
  }

  /**
   The exception is real. Worker 0 existed when connection 1 announced revision 1; it changed before
   the page was built; the connection is ready and the broker has never heard of the worker.
   */
  lemma ReadyWithoutRow() returns (steps: seq<Step>, hello: nat)
    ensures hello <= |steps|
    ensures var greeted := Exec(START, steps[..hello]);
            1 in greeted.sessions && 0 in greeted.workers && greeted.workers[0].revision <= greeted.sessions[1].initial
    ensures var s := Exec(START, steps); 1 in s.sessions && s.sessions[1].ready && 0 !in s.rows
  {
    var opening := Greet();
    hello := |opening|;
    var empty := Page(0, 1, true, []);
    var s5 := GREETED.(workers := map[0 := Record(2, 1)], high := 2);
    var s6 := WithSession(s5, 1, GREETED.sessions[1].(page := Some(empty)));
    ExecSnoc(START, opening, Peer(Change(0, 1)));
    assert CanSend(s5, 1, empty);
    ExecSnoc(START, opening + [Peer(Change(0, 1))], Sync(Send(1, empty)));
    assert Accepts(s6, 1);
    steps := opening + [Peer(Change(0, 1))] + [Sync(Send(1, empty))];
    ExecSnoc(START, steps, Sync(Deliver(1, true)));
    steps := steps + [Sync(Deliver(1, true))];
    assert steps[..hello] == opening;
  }

  const GREETED :=
    State(map[0 := Record(1, 0)], 1, 1, 1, true, 1, 0, map[], map[1 := Session(1, 0, 1, false, 0, 1, None, None)])

  lemma Greet() returns (steps: seq<Step>)
    ensures Exec(START, steps) == GREETED
  {
    ExecSnoc(START, [], Peer(Change(0, 0)));
    steps := [Peer(Change(0, 0))];
    ExecSnoc(START, steps, Peer(Observe(1)));
    steps := steps + [Peer(Observe(1))];
    ExecSnoc(START, steps, Leasing(Register));
    steps := steps + [Leasing(Register)];
    assert Exec(START, steps) == State(map[0 := Record(1, 0)], 1, 1, 1, true, 0, 0, map[], map[]);
    ExecSnoc(START, steps, Leasing(Claim(1, 1)));
    steps := steps + [Leasing(Claim(1, 1))];
  }

  lemma ExecSnoc(s: State, steps: seq<Step>, step: Step)
    ensures Exec(s, steps + [step]) == Next(Exec(s, steps), step)
  {
    assert (steps + [step])[..|steps|] == steps;
  }

  lemma StepForward(s: State, step: Step)
    requires Inv(s)
    ensures s.cursor <= Next(s, step).cursor && s.observed <= Next(s, step).observed
    ensures forall w :: w in s.workers ==> w in Next(s, step).workers && Follows(s.workers[w], Next(s, step).workers[w])
  {
    if step.Peer? {
      forall w | w in s.workers ensures w in Next(s, step).workers && Follows(s.workers[w], Next(s, step).workers[w]) {
        assert WorkerInv(s, w);
      }
    } else if step.Sync? && step.sync.Deliver? && Waiting(s, step.sync.lease) && Accepts(s, step.sync.lease) {
      AppliedForward(s.sessions[step.sync.lease].page.value);
    }
  }

  /** The cursor never falls back, and a worker is only ever replaced by a newer record of itself. */
  lemma {:induction false} NothingFallsBack(s: State, steps: seq<Step>)
    requires Inv(s)
    ensures s.cursor <= Exec(s, steps).cursor && s.observed <= Exec(s, steps).observed
    ensures forall w :: w in s.workers ==>
              w in Exec(s, steps).workers && Follows(s.workers[w], Exec(s, steps).workers[w])
  {
    if steps != [] {
      NothingFallsBack(s, steps[..|steps| - 1]);
      RunKeeps(s, steps[..|steps| - 1]);
      StepForward(Exec(s, steps[..|steps| - 1]), steps[|steps| - 1]);
    }
  }

  // What each step brings about

  /** A change gives its worker the newest revision there is, and leaves every other worker as it was. */
  lemma ChangeTakes(s: State, w: Worker, data: nat, v: Worker)
    requires Inv(s) && s.high < MAX_REVISION
    ensures var n := PeerNext(s, Change(w, data));
            && w in n.workers && n.workers[w].data == data && n.workers[w].revision == n.high > s.high
            && (v != w ==> (v in n.workers <==> v in s.workers) && (v in s.workers ==> n.workers[v] == s.workers[v]))
    ensures PeerNext(s, Observe(s.high)).observed == s.high
  {
  }

  /**
   A peer that connects gets its session: the broker's cursor is where it starts, what it announced is
   where it aims, and it is ready at once exactly if the cursor is already there.
   */
  lemma ConnectingTakes(s: State, revision: nat)
    requires Inv(s) && s.cursor <= revision <= s.observed
    ensures var n := LeaseNext(LeaseNext(s, Register), Claim(revision, revision));
            && n.lease == s.lease + 1 && Idle(n, n.lease) && n.active == n.lease && n.cursor == s.cursor
            && n.sessions[n.lease].base == s.cursor && n.sessions[n.lease].through == revision
            && (n.sessions[n.lease].ready <==> s.cursor == revision)
            && (forall again :: LeaseNext(n, Claim(again, again)) == n)
    ensures var n := LeaseNext(s, Expire);
            !n.online && n.lease == s.lease + 1 && n.rows == s.rows && n.cursor == s.cursor
  {
    assert SessionInv(s, s.lease + 1);
  }

  /** A session whose lease has passed to another connection can store nothing any more. */
  lemma OustedCannotStore(s: State, k: Lease)
    requires Inv(s) && Waiting(s, k) && (s.lease != k || !s.online)
    ensures var n := SyncNext(s, Deliver(k, true));
            n.rows == s.rows && n.cursor == s.cursor && n.sessions[k].reply == Some(Refused)
  {
  }

  /** A session that is where it aimed aims for whatever has been observed since. */
  lemma AimTakes(s: State, k: Lease)
    requires Inv(s) && k in s.sessions && s.sessions[k].page.None? && s.sessions[k].base == s.sessions[k].through
    ensures SyncNext(s, Aim(k)).sessions[k].through == s.observed || s.observed == s.sessions[k].through
    ensures s.sessions[k].through <= SyncNext(s, Aim(k)).sessions[k].through
  {
    assert SessionInv(s, k);
  }

  // The peer's loop

  /**
   One turn of the loop: what the workers do before the listing and before the delivery, and whether
   the call fails.
   */
  datatype Turn = Turn(early: seq<PeerStep>, late: seq<PeerStep>, fails: bool)

  method ListWorkers(workers: map<Worker, Record>) returns (listing: seq<Snapshot>)
    ensures forall x :: x in listing <==> x.worker in workers && workers[x.worker] == x.record
    ensures !Repeats(listing)
  {
    listing := [];
    var todo := workers.Keys;
    while todo != {}
      invariant todo <= workers.Keys
      invariant forall x :: x in listing <==> x.worker in workers && x.worker !in todo && workers[x.worker] == x.record
      invariant !Repeats(listing)
    {
      var w :| w in todo;
      forall i | 0 <= i < |listing| ensures listing[i].worker != w { assert listing[i] in listing; }
      listing := listing + [Snapshot(w, workers[w])];
      todo := todo - {w};
    }
  }

  method RunPeer(s0: State, steps: seq<PeerStep>) returns (s: State, ghost trace: seq<Step>)
    requires Inv(s0)
    ensures s == Exec(s0, trace) && Inv(s)
    ensures s == s0.(workers := s.workers, high := s.high, observed := s.observed)
  {
    s, trace := s0, [];
    for i := 0 to |steps|
      invariant s == Exec(s0, trace) && Inv(s)
      invariant s == s0.(workers := s.workers, high := s.high, observed := s.observed)
    {
      PeerKeeps(s, steps[i]);
      ExecSnoc(s0, trace, Peer(steps[i]));
      trace := trace + [Peer(steps[i])];
      s := PeerNext(s, steps[i]);
    }
  }

  lemma {:induction false} ExecConcat(s: State, a: seq<Step>, b: seq<Step>)
    ensures Exec(s, a + b) == Exec(Exec(s, a), b)
  {
    if b == [] {
      assert a + b == a;
    } else {
      ExecConcat(s, a, b[..|b| - 1]);
      assert (a + b)[..|a + b| - 1] == a + b[..|b| - 1];
    }
  }

  predicate SameAim(x: Session, y: Session) {
    x.through == y.through && x.initial == y.initial
  }

  ghost predicate Idle(s: State, k: Lease) {
    k in s.sessions && s.online && s.lease == k && s.sessions[k].page.None?
  }

  lemma ListingSound(s: State, listing: seq<Snapshot>)
    requires Inv(s) && !Repeats(listing)
    requires forall x :: x in listing <==> x.worker in s.workers && s.workers[x.worker] == x.record
    ensures Sound(listing)
  {
    forall i: nat | i < |listing| ensures 0 < Revision(listing, i) <= MAX_REVISION {
      assert listing[i] in listing && WorkerInv(s, listing[i].worker);
    }
    forall i, j | 0 <= i < j < |listing| ensures Apart(listing[i], listing[j]) {
      assert listing[i] in listing && listing[j] in listing && PairInv(s, listing[i].worker, listing[j].worker);
    }
  }

  /** Build a page from the workers as they are and put it on its way. */
  method SendPage(s0: State, k: Lease) returns (s: State, ghost trace: seq<Step>)
    requires Inv(s0) && Idle(s0, k) && s0.sessions[k].base < s0.sessions[k].through
    ensures Inv(s) && s == Exec(s0, trace)
    ensures exists p :: CanSend(s0, k, p) && s == WithSession(s0, k, s0.sessions[k].(page := Some(p)))
  {
    var listing := ListWorkers(s0.workers);
    ListingSound(s0, listing);
    assert SessionInv(s0, k);
    var page := NextPage(listing, s0.sessions[k].base, s0.sessions[k].through);
    assert CanSend(s0, k, page.value);
    s := s0.(sessions := s0.sessions[k := s0.sessions[k].(page := Some(page.value))]);
    SendKeeps(s0, k, page.value);
    ExecSnoc(s0, [], Sync(Send(k, page.value)));
    trace := [Sync(Send(k, page.value))];
    assert s == WithSession(s0, k, s0.sessions[k].(page := Some(page.value)));
  }

  /** The call: the broker takes the page and the peer takes its answer. */
  method Exchange(s0: State, k: Lease) returns (s: State, ghost trace: seq<Step>)
    requires Inv(s0) && Waiting(s0, k) && s0.online && s0.lease == k && s0.sessions[k].base < s0.sessions[k].through
    ensures Inv(s) && s == Exec(s0, trace) && Idle(s, k)
    ensures s0.sessions[k].base < s.sessions[k].base == s.cursor && SameAim(s0.sessions[k], s.sessions[k])
  {
    assert SessionInv(s0, k);
    AcceptedAlways(s0, k);
    var expected := Applied(s0.sessions[k].page.value);
    AppliedForward(s0.sessions[k].page.value);
    ghost var deliver, receive := Sync(Deliver(k, true)), Sync(Receive(k));
    DeliveredKeeps(s0, k);
    var answered := Delivered(s0, k);
    ExecSnoc(s0, [], deliver);
    SyncKeeps(answered, Receive(k));
    var x := answered.sessions[k].(base := expected, page := None, reply := None);
    s := answered.(sessions := answered.sessions[k := x]);
    ExecSnoc(s0, [deliver], receive);
    trace := [deliver] + [receive];
  }

  method TakeTurn(s0: State, k: Lease, turn: Turn) returns (ok: bool, s: State, ghost trace: seq<Step>)
    requires Inv(s0) && Idle(s0, k) && s0.sessions[k].base < s0.sessions[k].through
    ensures Inv(s) && s == Exec(s0, trace)
    ensures ok == !turn.fails
    ensures ok ==>
              Idle(s, k) && s0.sessions[k].base < s.sessions[k].base && SameAim(s0.sessions[k], s.sessions[k])
  {
    var s1, early := RunPeer(s0, turn.early);
    assert SessionInv(s1, k);
    var s2, send := SendPage(s1, k);
    var s3, late := RunPeer(s2, turn.late);
    ExecConcat(s0, early, send);
    ExecConcat(s0, early + send, late);
    if turn.fails { return false, s3, early + send + late; }
    ghost var exchange;
    s, exchange := Exchange(s3, k);
    ExecConcat(s0, early + send + late, exchange);
    return true, s, early + send + late + exchange;
  }

  /**
   However the workers change meanwhile, the loop ends, and unless a call fails it ends with the broker
   holding the current record of every worker that has not moved past what the loop aimed for.
   */
  method SyncWorkerLifecycles(s0: State, k: Lease, turns: seq<Turn>)
    returns (r: Result<nat>, s: State, ghost trace: seq<Step>)
    requires Inv(s0) && Idle(s0, k)
    ensures Inv(s) && s == Exec(s0, trace)
    ensures (forall i :: 0 <= i < |turns| ==> !turns[i].fails) ==> r.Ok?
    ensures r.Ok? ==> r.value == s.cursor == s0.sessions[k].through && Idle(s, k)
    ensures r.Ok? ==> s.sessions[k].initial == s0.sessions[k].initial
    ensures r.Ok? ==> forall w :: w in s.workers && s.workers[w].revision <= r.value ==>
              w in s.rows && s.rows[w] == s.workers[w]
  {
    s, trace := s0, [];
    assert SessionInv(s, k);
    var i := 0;
    while s.sessions[k].base < s.sessions[k].through
      invariant Inv(s) && s == Exec(s0, trace) && Idle(s, k)
      invariant s.sessions[k].base <= s.sessions[k].through == s0.sessions[k].through
      invariant s.sessions[k].initial == s0.sessions[k].initial
      decreases s.sessions[k].through - s.sessions[k].base
    {
      var ok;
      ghost var part;
      ok, s, part := TakeTurn(s, k, if i < |turns| then turns[i] else Turn([], [], false));
      ExecConcat(s0, trace, part);
      trace := trace + part;
      if !ok { return Err, s, trace; }
      assert SessionInv(s, k);
      i := i + 1;
    }
    r := Ok(s.sessions[k].base);
    assert SessionInv(s, k);
    forall w | w in s.workers && s.workers[w].revision <= r.value ensures w in s.rows && s.rows[w] == s.workers[w] {
      assert WorkerInv(s, w);
    }
  }

  /**
   A peer that connects, announces what it has observed and runs the loop undisturbed ends up ready, with
   the broker holding the current record of every worker it had announced.
   */
  method Connect(s0: State, turns: seq<Turn>) returns (r: Result<nat>, s: State, ghost trace: seq<Step>)
    requires Inv(s0)
    ensures Inv(s) && s == Exec(s0, trace)
    ensures (forall i :: 0 <= i < |turns| ==> !turns[i].fails) ==> r.Ok?
    ensures r.Ok? ==>
              && s.cursor == s0.observed && s.lease == s0.lease + 1
              && s.lease in s.sessions && s.sessions[s.lease].ready
              && forall w :: w in s.workers && s.workers[w].revision <= s0.observed ==>
                   w in s.rows && s.rows[w] == s.workers[w]
  {
    var k := s0.lease + 1;
    ConnectingTakes(s0, s0.observed);
    LeaseKeeps(s0, Register);
    LeaseKeeps(LeaseNext(s0, Register), Claim(s0.observed, s0.observed));
    var high, cursor := s0.observed, s0.cursor;
    var session := Session(high, cursor, high, cursor == high, cursor, high, None, None);
    var claimed := s0.(lease := k, online := true, active := k, sessions := s0.sessions[k := session]);
    ExecSnoc(s0, [], Leasing(Register));
    ExecSnoc(s0, [Leasing(Register)], Leasing(Claim(s0.observed, s0.observed)));
    ghost var hello, rest := [Leasing(Register)] + [Leasing(Claim(s0.observed, s0.observed))], [];
    r, s, rest := SyncWorkerLifecycles(claimed, k, turns);
    ExecConcat(s0, hello, rest);
    trace := hello + rest;
    assert SessionInv(s, k);
  }
}
