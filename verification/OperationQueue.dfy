/**
 The per-agent operation queue (internal/broker/agent_operation_queue.go).

 Enqueue and the two locked sections of a runner's loop may interleave in any order. A run is any
 list of such steps; a step whose guard does not hold leaves the state alone.
 */
module OperationQueue {

  datatype Key = Key(treeID: string, agentID: string)

  /** The identity of a queued closure. */
  type Operation = nat

  type Pending = map<Key, seq<Operation>>

  function Queue(pending: Pending, key: Key): (q: seq<Operation>) {
    if key in pending then pending[key] else []
  }

  // ---------------------------------------------------------------------------------------------
  // The object, one method per locked section
  // ---------------------------------------------------------------------------------------------

  function Appended(pending: Pending, key: Key, op: Operation): Pending {
    pending[key := Queue(pending, key) + [op]]
  }

  /** What the second locked section leaves behind once the head operation has run. */
  function Popped(pending: Pending, key: Key): Pending {
    var q := Queue(pending, key);
    if |q| <= 1 then pending - {key} else pending[key := q[1..]]
  }

  class AgentOperationQueue {
    var pending: Pending

    constructor ()
      ensures pending == map[]
    {
      pending := map[];
    }

    /** `start` tells the caller to launch a runner for this key. */
    method Enqueue(key: Key, op: Operation) returns (start: bool)
      modifies this
      ensures pending == Appended(old(pending), key, op)
      ensures start <==> Queue(old(pending), key) == []
    {
      var queue := if key in pending then pending[key] else [];
      queue := queue + [op];
      pending := pending[key := queue];
      start := |pending[key]| == 1;
    }

    /** The head of the queue, or nothing (and no entry) when there is nothing to run. */
    method Next(key: Key) returns (next: seq<Operation>)
      modifies this
      ensures Queue(old(pending), key) == [] ==> next == [] && pending == old(pending) - {key}
      ensures Queue(old(pending), key) != [] ==>
                next == Queue(old(pending), key)[..1] && pending == old(pending)
    {
      var operations := if key in pending then pending[key] else [];
      if |operations| == 0 {
        pending := pending - {key};
        return [];
      }
      next := [operations[0]];
    }

    /** `last` tells the runner to return. */
    method Finished(key: Key) returns (last: bool)
      requires Queue(pending, key) != []
      modifies this
      ensures pending == Popped(old(pending), key)
      ensures last <==> Queue(pending, key) == []
    {
      var operations := pending[key];
      if |operations| == 1 {
        pending := pending - {key};
        return true;
      }
      pending := pending[key := operations[1..]];
      last := false;
    }
  }

  // ---------------------------------------------------------------------------------------------
  // Every interleaving
  // ---------------------------------------------------------------------------------------------

  datatype Phase = Fetching | Running(op: Operation)

  datatype Runner = Runner(key: Key, phase: Phase)

  /** `enqueued` and `completed` are histories: they are written and never read by a step. */
  datatype State = State(
    pending: Pending,
    runners: map<nat, Runner>,
    nextRunner: nat,
    enqueued: map<Key, seq<Operation>>,
    completed: map<Key, seq<Operation>>)

  datatype Step =
    | Enqueue(key: Key, op: Operation)
    | Fetch(runner: nat)
    | Finish(runner: nat)

  const START := State(map[], map[], 0, map[], map[])

  function Apply(s: State, step: Step): State {
    match step
    case Enqueue(key, op) =>
      var queued := s.(pending := Appended(s.pending, key, op), enqueued := Appended(s.enqueued, key, op));
      if |Queue(queued.pending, key)| == 1
      then queued.(runners := s.runners[s.nextRunner := Runner(key, Fetching)], nextRunner := s.nextRunner + 1)
      else queued
    case Fetch(r) =>
      if r !in s.runners || !s.runners[r].phase.Fetching? then s
      else
        var key := s.runners[r].key;
        var q := Queue(s.pending, key);
        if q == [] then s.(pending := s.pending - {key}, runners := s.runners - {r})
        else s.(runners := s.runners[r := Runner(key, Running(q[0]))])
    case Finish(r) =>
      if r !in s.runners || !s.runners[r].phase.Running? then s
      else
        var key := s.runners[r].key;
        var done := s.(pending := Popped(s.pending, key),
                       completed := Appended(s.completed, key, s.runners[r].phase.op));
        if Queue(done.pending, key) == [] then done.(runners := s.runners - {r})
        else done.(runners := s.runners[r := Runner(key, Fetching)])
  }

  function Exec(s: State, steps: seq<Step>): State {
    if steps == [] then s else Apply(Exec(s, steps[..|steps| - 1]), steps[|steps| - 1])
  }

  ghost predicate HasRunner(s: State, key: Key) {
    exists r :: r in s.runners && s.runners[r].key == key
  }

  ghost predicate Conserved(s: State, k: Key) {
    Queue(s.enqueued, k) == Queue(s.completed, k) + Queue(s.pending, k)
  }

  ghost predicate RunnerInv(s: State, r: nat)
    requires r in s.runners
  {
    && r < s.nextRunner
    && s.runners[r].key in s.pending
    && s.pending[s.runners[r].key] != []
    && (s.runners[r].phase.Running? ==> s.runners[r].phase.op == s.pending[s.runners[r].key][0])
  }

  ghost predicate OneRunner(s: State) {
    forall r, t :: r in s.runners && t in s.runners && s.runners[r].key == s.runners[t].key ==> r == t
  }

  ghost predicate Served(s: State) {
    forall k :: k in s.pending ==> HasRunner(s, k)
  }

  ghost predicate RunnersInv(s: State) {
    forall r :: r in s.runners ==> RunnerInv(s, r)
  }

  ghost predicate Inv(s: State) {
    && Served(s)
    && RunnersInv(s)
    && OneRunner(s)
    && (forall k :: Conserved(s, k))
  }

  lemma RunnersSurvive(s: State, t: State)
    requires Served(s)
    requires forall r :: r in s.runners && s.runners[r].key in t.pending ==>
               r in t.runners && t.runners[r].key == s.runners[r].key
    requires forall k :: k in t.pending && k !in s.pending ==> HasRunner(t, k)
    ensures Served(t)
  {
    forall k | k in t.pending && k in s.pending ensures HasRunner(t, k) {
      var r :| r in s.runners && s.runners[r].key == k;
      assert t.runners[r].key == k;
    }
  }

  lemma EnqueueRunners(s: State, key: Key, op: Operation)
    requires RunnersInv(s) && OneRunner(s)
    ensures var t := Apply(s, Enqueue(key, op));
            && RunnersInv(t) && OneRunner(t)
            && (forall r :: r in s.runners ==> r in t.runners && t.runners[r] == s.runners[r])
            && (forall k :: k in t.pending && k !in s.pending ==> HasRunner(t, k))
  {
    var t := Apply(s, Enqueue(key, op));
    forall r | r in s.runners ensures r in t.runners && t.runners[r] == s.runners[r] && RunnerInv(t, r) {
      assert RunnerInv(s, r);
    }
    if key !in s.pending {
      assert t.runners[s.nextRunner] == Runner(key, Fetching);
    }
  }

  lemma EnqueueConserves(s: State, key: Key, op: Operation, k: Key)
    requires Conserved(s, k)
    ensures Conserved(Apply(s, Enqueue(key, op)), k)
  {
  }

  lemma FetchRunners(s: State, r: nat)
    requires RunnersInv(s) && OneRunner(s)
    ensures var t := Apply(s, Fetch(r));
            && RunnersInv(t) && OneRunner(t) && t.pending == s.pending
            && (forall w :: w in s.runners ==> w in t.runners && t.runners[w].key == s.runners[w].key)
  {
    var t := Apply(s, Fetch(r));
    assert r in s.runners ==> RunnerInv(s, r);
    forall w | w in t.runners ensures RunnerInv(t, w) { assert RunnerInv(s, w); }
  }

  lemma FinishRunners(s: State, r: nat)
    requires RunnersInv(s) && OneRunner(s)
    ensures var t := Apply(s, Finish(r));
            && RunnersInv(t) && OneRunner(t) && t.pending.Keys <= s.pending.Keys
            && (forall w :: w in s.runners && s.runners[w].key in t.pending ==>
                  w in t.runners && t.runners[w].key == s.runners[w].key)
  {
    var t := Apply(s, Finish(r));
    assert r in s.runners ==> RunnerInv(s, r);
    forall w | w in t.runners ensures RunnerInv(t, w) { assert RunnerInv(s, w); }
  }

  lemma FinishConserves(s: State, r: nat, k: Key)
    requires r in s.runners ==> RunnerInv(s, r)
    requires Conserved(s, k)
    ensures Conserved(Apply(s, Finish(r)), k)
  {
    var t := Apply(s, Finish(r));
    if r in s.runners && s.runners[r].phase.Running? && s.runners[r].key == k {
      var q := s.pending[k];
      assert Queue(s.completed, k) + q == (Queue(s.completed, k) + [q[0]]) + q[1..];
      assert Queue(t.pending, k) == q[1..];
    }
  }

  lemma EnqueueKeeps(s: State, key: Key, op: Operation)
    requires Inv(s)
    ensures Inv(Apply(s, Enqueue(key, op)))
  {
    var t := Apply(s, Enqueue(key, op));
    EnqueueRunners(s, key, op);
    forall k ensures Conserved(t, k) { EnqueueConserves(s, key, op, k); }
    RunnersSurvive(s, t);
  }

  lemma FetchKeeps(s: State, r: nat)
    requires Inv(s)
    ensures Inv(Apply(s, Fetch(r)))
  {
    var t := Apply(s, Fetch(r));
    FetchRunners(s, r);
    forall k ensures Conserved(t, k) { assert Conserved(s, k); }
    RunnersSurvive(s, t);
  }

  lemma FinishKeeps(s: State, r: nat)
    requires Inv(s)
    ensures Inv(Apply(s, Finish(r)))
  {
    var t := Apply(s, Finish(r));
    FinishRunners(s, r);
    forall k ensures Conserved(t, k) { FinishConserves(s, r, k); }
    RunnersSurvive(s, t);
  }

  lemma StepKeepsInv(s: State, step: Step)
    requires Inv(s)
    ensures Inv(Apply(s, step))
  {
    match step
    case Enqueue(key, op) => EnqueueKeeps(s, key, op);
    case Fetch(r) => FetchKeeps(s, r);
    case Finish(r) => FinishKeeps(s, r);
  }

  lemma {:induction false} RunKeepsInv(s: State, steps: seq<Step>)
    requires Inv(s)
    ensures Inv(Exec(s, steps))
  {
    if steps != [] {
      var before := steps[..|steps| - 1];
      RunKeepsInv(s, before);
      StepKeepsInv(Exec(s, before), steps[|steps| - 1]);
    }
  }

  ghost predicate Reachable(s: State) {
    exists steps :: s == Exec(START, steps)
  }

  lemma ReachableInv(s: State)
    requires Reachable(s)
    ensures Inv(s)
  {
    var steps :| s == Exec(START, steps);
    RunKeepsInv(START, steps);
  }

  /**
   In every reachable state: nothing enqueued is lost, reordered or run twice; a key has a runner
   exactly while its queue is non-empty, and never two; a running operation is the oldest unfinished one.
   */
  lemma OrderedExactlyOnce(s: State, key: Key)
    requires Reachable(s)
    ensures Queue(s.enqueued, key) == Queue(s.completed, key) + Queue(s.pending, key)
    ensures Queue(s.pending, key) != [] <==> HasRunner(s, key)
    ensures forall r, t :: r in s.runners && t in s.runners && s.runners[r].key == key == s.runners[t].key ==> r == t
    ensures forall r :: r in s.runners && s.runners[r].key == key && s.runners[r].phase.Running? ==>
              && |Queue(s.completed, key)| < |Queue(s.enqueued, key)|
              && s.runners[r].phase.op == Queue(s.enqueued, key)[|Queue(s.completed, key)|]
  {
    ReachableInv(s);
    assert Conserved(s, key);
    forall r | r in s.runners && s.runners[r].key == key
      ensures key in s.pending && s.pending[key] != []
    {
      assert RunnerInv(s, r);
    }
    assert key in s.pending ==> HasRunner(s, key);
  }

  /** The early return of the first locked section (an empty queue) is never taken. */
  lemma FetchAlwaysFindsWork(s: State, r: nat)
    requires Reachable(s) && r in s.runners && s.runners[r].phase.Fetching?
    ensures Queue(s.pending, s.runners[r].key) != []
    ensures r in Apply(s, Fetch(r)).runners
    ensures Apply(s, Fetch(r)).runners[r].phase == Running(Queue(s.pending, s.runners[r].key)[0])
  {
    ReachableInv(s);
    assert RunnerInv(s, r);
  }

  /** The steps a runner takes to serve `n` operations. */
  function Serve(r: nat, n: nat): seq<Step> {
    if n == 0 then [] else Serve(r, n - 1) + [Fetch(r), Finish(r)]
  }

  lemma ExecAppend(s: State, steps: seq<Step>, a: Step, b: Step)
    ensures Exec(s, steps + [a, b]) == Apply(Apply(Exec(s, steps), a), b)
  {
    assert (steps + [a, b])[..|steps| + 1] == steps + [a];
    assert (steps + [a])[..|steps|] == steps;
  }

  lemma {:induction false} ExecCons(s: State, first: Step, rest: seq<Step>)
    ensures Exec(s, [first] + rest) == Exec(Apply(s, first), rest)
  {
    var all := [first] + rest;
    if rest == [] {
      assert all[..0] == [];
    } else {
      assert all[..|all| - 1] == [first] + rest[..|rest| - 1];
      ExecCons(s, first, rest[..|rest| - 1]);
    }
  }

  /** From `s` to `t` the first `n` operations of a key were served and nothing else happened to it. */
  ghost predicate ServedBy(s: State, t: State, r: nat, key: Key, n: nat) {
    && n <= |Queue(s.pending, key)|
    && Queue(t.pending, key) == Queue(s.pending, key)[n..]
    && Queue(t.enqueued, key) == Queue(s.enqueued, key)
    && (Queue(t.pending, key) != [] ==> r in t.runners && t.runners[r] == Runner(key, Fetching))
  }

  lemma ServeOne(s: State, r: nat)
    requires Inv(s) && r in s.runners && s.runners[r].phase.Fetching?
    ensures ServedBy(s, Apply(Apply(s, Fetch(r)), Finish(r)), r, s.runners[r].key, 1)
  {
    assert RunnerInv(s, r);
  }

  lemma ServedTrans(s: State, t: State, u: State, r: nat, key: Key, n: nat)
    requires ServedBy(s, t, r, key, n) && ServedBy(t, u, r, key, 1)
    ensures ServedBy(s, u, r, key, n + 1)
  {
    assert Queue(s.pending, key)[n..][1..] == Queue(s.pending, key)[n + 1..];
  }

  lemma {:induction false} ServeFrom(s: State, r: nat, n: nat)
    requires Inv(s) && r in s.runners && s.runners[r].phase.Fetching?
    requires n <= |Queue(s.pending, s.runners[r].key)|
    ensures ServedBy(s, Exec(s, Serve(r, n)), r, s.runners[r].key, n)
  {
    var key := s.runners[r].key;
    if n > 0 {
      var before := Serve(r, n - 1);
      var t := Exec(s, before);
      ServeFrom(s, r, n - 1);
      RunKeepsInv(s, before);
      ServeOne(t, r);
      ExecAppend(s, before, Fetch(r), Finish(r));
      ServedTrans(s, t, Exec(s, Serve(r, n)), r, key, n - 1);
    } else {
      assert s.runners[r] == Runner(key, Fetching);
    }
  }

  /** With an empty queue everything enqueued has completed and the runner is gone. */
  lemma Drained(s: State, key: Key)
    requires Inv(s) && Queue(s.pending, key) == []
    ensures Queue(s.completed, key) == Queue(s.enqueued, key)
    ensures key !in s.pending && !HasRunner(s, key)
  {
    assert Conserved(s, key);
    assert key in s.pending ==> HasRunner(s, key);
    forall r | r in s.runners ensures s.runners[r].key != key { assert RunnerInv(s, r); }
  }

  lemma {:induction false} FinishThenServe(s: State, r: nat) returns (more: seq<Step>)
    requires Inv(s) && r in s.runners && s.runners[r].phase.Running?
    ensures var key := s.runners[r].key;
            var t := Exec(s, more);
            Queue(t.pending, key) == [] && Queue(t.enqueued, key) == Queue(s.enqueued, key)
  {
    assert RunnerInv(s, r);
    var key := s.runners[r].key;
    var s' := Apply(s, Finish(r));
    StepKeepsInv(s, Finish(r));
    var n := |Queue(s'.pending, key)|;
    more := [Finish(r)] + Serve(r, n);
    ExecCons(s, Finish(r), Serve(r, n));
    if n > 0 { ServeFrom(s', r, n); }
  }

  /**
   No operation is stranded: from any reachable state in which `key` has queued work, its runner
   alone brings every operation enqueued so far to completion and then retires.
   */
  lemma RunnerDrainsQueue(s: State, key: Key) returns (more: seq<Step>)
    requires Reachable(s) && Queue(s.pending, key) != []
    ensures var t := Exec(s, more);
            && Queue(t.completed, key) == Queue(t.enqueued, key) == Queue(s.enqueued, key)
            && key !in t.pending && !HasRunner(t, key)
  {
    ReachableInv(s);
    assert HasRunner(s, key);
    var r :| r in s.runners && s.runners[r].key == key;
    if s.runners[r].phase.Fetching? {
      more := Serve(r, |Queue(s.pending, key)|);
      ServeFrom(s, r, |Queue(s.pending, key)|);
    } else {
      more := FinishThenServe(s, r);
    }
    RunKeepsInv(s, more);
    Drained(Exec(s, more), key);
  }

  /** The operations a run was asked to enqueue for a key, in order. */
  function Asked(steps: seq<Step>, key: Key): seq<Operation> {
    if steps == [] then []
    else
      var last := steps[|steps| - 1];
      Asked(steps[..|steps| - 1], key) + (if last.Enqueue? && last.key == key then [last.op] else [])
  }

  lemma EnqueuedNext(s: State, step: Step, key: Key)
    ensures Queue(Apply(s, step).enqueued, key) ==
              Queue(s.enqueued, key) + (if step.Enqueue? && step.key == key then [step.op] else [])
  {
  }

  lemma {:induction false} AskedIsEnqueued(steps: seq<Step>, key: Key)
    ensures Asked(steps, key) == Queue(Exec(START, steps).enqueued, key)
  {
    if steps != [] {
      AskedIsEnqueued(steps[..|steps| - 1], key);
      EnqueuedNext(Exec(START, steps[..|steps| - 1]), steps[|steps| - 1], key);
    }
  }

  /** What a run completes of a key, and what it still has to, is what it was asked for, in order. */
  lemma AskedIsServed(steps: seq<Step>, key: Key)
    ensures Asked(steps, key) == Queue(Exec(START, steps).completed, key) + Queue(Exec(START, steps).pending, key)
  {
    AskedIsEnqueued(steps, key);
    RunKeepsInv(START, steps);
    assert Conserved(Exec(START, steps), key);
  }
}
