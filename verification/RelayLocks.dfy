/**
 The locks that serialize deliveries to one root peer. An entry is made when somebody first asks for
 its key and deleted when nobody refers to it any more; waiting can be given up; a token in a
 one-slot channel says whether the entry is free.
 */
module RelayLocks {
  type Key = nat
  type Thread = nat
  type EntryId = nat

  datatype Entry = Entry(free: bool, refs: nat)

  /** `Taken` has the token but has not looked at its context yet; `Returned` has put it back but still counts. */
  datatype Stage = Waiting | Taken | Holding | Returned
  datatype Use = Use(key: Key, entry: EntryId, stage: Stage)

  datatype State = State(locks: map<Key, EntryId>, entries: map<EntryId, Entry>, uses: map<Thread, Use>)

  datatype Step = Arrive(thread: Thread, key: Key, entry: EntryId) | GiveUp(thread: Thread) | Take(thread: Thread)
                | Refuse(thread: Thread) | Enter(thread: Thread) | Put(thread: Thread) | Drop(thread: Thread)

  const IDLE := State(map[], map[], map[])

  // The critical sections

  /** Find or make the entry of a key and count a reference; `spare` is the object made if one is needed. */
  function Referenced(locks: map<Key, EntryId>, entries: map<EntryId, Entry>, key: Key, spare: EntryId)
    : (map<Key, EntryId>, map<EntryId, Entry>, EntryId)
    requires key in locks ==> locks[key] in entries
  {
    if key in locks then
      (locks, entries[locks[key] := entries[locks[key]].(refs := entries[locks[key]].refs + 1)], locks[key])
    else (locks[key := spare], entries[spare := Entry(true, 1)], spare)
  }

  function Dropped(locks: map<Key, EntryId>, entries: map<EntryId, Entry>, key: Key, e: EntryId)
    : (map<Key, EntryId>, map<EntryId, Entry>)
    requires e in entries && entries[e].refs > 0
  {
    var left := entries[e].refs - 1;
    (if left == 0 && key in locks && locks[key] == e then locks - {key} else locks,
     entries[e := entries[e].(refs := left)])
  }

  class RootLocks {
    var locks: map<Key, EntryId>
    var entries: map<EntryId, Entry>

    constructor ()
      ensures locks == map[] && entries == map[]
    {
      locks, entries := map[], map[];
    }

    method Reference(key: Key, spare: EntryId) returns (e: EntryId)
      requires key in locks ==> locks[key] in entries
      modifies this
      ensures (locks, entries, e) == Referenced(old(locks), old(entries), key, spare)
    {
      if key !in locks {
        assert entries[spare := Entry(true, 0)][spare := Entry(true, 1)] == entries[spare := Entry(true, 1)];
        locks, entries := locks[key := spare], entries[spare := Entry(true, 0)];
      }
      e := locks[key];
      entries := entries[e := entries[e].(refs := entries[e].refs + 1)];
    }

    method DropReference(key: Key, e: EntryId)
      requires e in entries && entries[e].refs > 0
      modifies this
      ensures (locks, entries) == Dropped(old(locks), old(entries), key, e)
    {
      entries := entries[e := entries[e].(refs := entries[e].refs - 1)];
      if entries[e].refs == 0 && key in locks && locks[key] == e {
        locks := locks - {key};
      }
    }
  }

  // Whole runs

  function Next(s: State, step: Step): State {
    if step.Arrive? then
      if || step.thread in s.uses || step.entry in s.entries
         || (step.key in s.locks && s.locks[step.key] !in s.entries)
      then s
      else
        var (locks, entries, e) := Referenced(s.locks, s.entries, step.key, step.entry);
        State(locks, entries, s.uses[step.thread := Use(step.key, e, Waiting)])
    else if step.thread !in s.uses || s.uses[step.thread].entry !in s.entries ||
            s.entries[s.uses[step.thread].entry].refs == 0 then s
    else
      var t, u := step.thread, s.uses[step.thread];
      var e := s.entries[u.entry];
      match step
      case GiveUp(_) => if u.stage.Waiting? then Leave(s, t) else s
      case Take(_) => if u.stage.Waiting? && e.free then Staged(s, t, Taken, false) else s
      case Refuse(_) => if u.stage.Taken? then Staged(s, t, Returned, true) else s
      case Enter(_) => if u.stage.Taken? then Staged(s, t, Holding, false) else s
      case Put(_) => if u.stage.Holding? then Staged(s, t, Returned, true) else s
      case Drop(_) => if u.stage.Returned? then Leave(s, t) else s
      case Arrive(_, _, _) => s
  }

  function Staged(s: State, t: Thread, stage: Stage, free: bool): State
    requires t in s.uses && s.uses[t].entry in s.entries
  {
    var u := s.uses[t];
    s.(uses := s.uses[t := u.(stage := stage)], entries := s.entries[u.entry := s.entries[u.entry].(free := free)])
  }

  function Leave(s: State, t: Thread): State
    requires t in s.uses && s.uses[t].entry in s.entries && s.entries[s.uses[t].entry].refs > 0
  {
    var u := s.uses[t];
    var (locks, entries) := Dropped(s.locks, s.entries, u.key, u.entry);
    State(locks, entries, s.uses - {t})
  }

  function Exec(s: State, steps: seq<Step>): State {
    if steps == [] then s else Next(Exec(s, steps[..|steps| - 1]), steps[|steps| - 1])
  }

  // The invariant

  ghost function Users(s: State, e: EntryId): set<Thread> {
    set t | t in s.uses && s.uses[t].entry == e
  }

  predicate Has(s: State, t: Thread) {
    t in s.uses && (s.uses[t].stage.Taken? || s.uses[t].stage.Holding?)
  }

  ghost predicate EntryInv(s: State, e: EntryId) {
    e in s.entries ==> s.entries[e].refs == |Users(s, e)|
  }

  /** An entry nobody has is free: the token is never lost. */
  ghost predicate FreeInv(s: State, e: EntryId) {
    e in s.entries && (forall t :: t in s.uses && s.uses[t].entry == e ==> !Has(s, t)) ==> s.entries[e].free
  }

  ghost predicate UseInv(s: State, t: Thread) {
    t in s.uses ==>
      var u := s.uses[t];
      && u.entry in s.entries && u.key in s.locks && s.locks[u.key] == u.entry
      && (Has(s, t) ==> !s.entries[u.entry].free)
  }

  ghost predicate PairInv(s: State, t: Thread, v: Thread) {
    Has(s, t) && Has(s, v) && s.uses[t].entry == s.uses[v].entry ==> t == v
  }

  ghost predicate KeyInv(s: State, k: Key) {
    k in s.locks ==> s.locks[k] in s.entries && s.entries[s.locks[k]].refs > 0
  }

  ghost predicate KeysInv(s: State, k: Key, l: Key) {
    k in s.locks && l in s.locks && s.locks[k] == s.locks[l] ==> k == l
  }

  ghost predicate Inv(s: State) {
    && (forall e :: EntryInv(s, e))
    && (forall e :: FreeInv(s, e))
    && (forall t :: UseInv(s, t))
    && (forall t, v :: PairInv(s, t, v))
    && (forall k :: KeyInv(s, k))
    && (forall k, l :: KeysInv(s, k, l))
  }

  lemma ArriveKeeps(s: State, step: Step)
    requires Inv(s) && step.Arrive? && Next(s, step) != s
    ensures Inv(Next(s, step))
  {
    var n := Next(s, step);
    assert KeyInv(s, step.key);
    forall e ensures EntryInv(n, e) { ArriveCounts(s, step, e); }
    forall e ensures FreeInv(n, e) { StillFree(s, n, step.thread, e); }
    forall v ensures UseInv(n, v) { assert UseInv(s, v); }
    forall v, w ensures PairInv(n, v, w) { assert PairInv(s, v, w); }
    forall k ensures KeyInv(n, k) { assert KeyInv(s, k); }
    forall k, l ensures KeysInv(n, k, l) { assert KeysInv(s, k, l) && KeyInv(s, k) && KeyInv(s, l); }
  }

  lemma ArriveCounts(s: State, step: Step, e: EntryId)
    requires Inv(s) && step.Arrive? && Next(s, step) != s
    ensures EntryInv(Next(s, step), e)
  {
    var n, t := Next(s, step), step.thread;
    var mine := n.uses[t].entry;
    assert KeyInv(s, step.key) && EntryInv(s, e);
    assert Users(n, e) == if e == mine then Users(s, e) + {t} else Users(s, e);
    if mine !in s.entries && e == mine { NobodyUses(s, e); }
  }

  lemma NobodyUses(s: State, e: EntryId)
    requires Inv(s) && e !in s.entries
    ensures Users(s, e) == {}
  {
    forall v ensures v !in Users(s, e) { assert UseInv(s, v); }
  }

  lemma StillFree(s: State, n: State, t: Thread, e: EntryId)
    requires Inv(s)
    requires e in s.entries && e in n.entries ==> n.entries[e].free == s.entries[e].free
    requires e !in s.entries && e in n.entries ==> n.entries[e].free
    requires !Has(s, t) && forall v :: v != t ==>
               (v in s.uses <==> v in n.uses) && (v in s.uses ==> n.uses[v] == s.uses[v])
    ensures FreeInv(n, e)
  {
    assert FreeInv(s, e);
    if e in s.entries && e in n.entries && !n.entries[e].free {
      var v :| v in s.uses && s.uses[v].entry == e && Has(s, v);
      assert Has(n, v);
    }
  }

  lemma StagedKeeps(s: State, t: Thread, stage: Stage, free: bool)
    requires Inv(s) && t in s.uses && s.uses[t].entry in s.entries
    requires stage.Taken? || stage.Holding? <==> !free
    requires free ==> Has(s, t)
    requires !free ==> Has(s, t) || s.entries[s.uses[t].entry].free
    ensures Inv(Staged(s, t, stage, free))
  {
    var n, mine := Staged(s, t, stage, free), s.uses[t].entry;
    assert UseInv(s, t);
    forall e ensures EntryInv(n, e) { assert EntryInv(s, e) && Users(n, e) == Users(s, e); }
    forall e ensures FreeInv(n, e) {
      if e == mine {
        if !free { assert Has(n, t); }
      } else {
        assert FreeInv(s, e);
        if e in s.entries && !s.entries[e].free {
          var v :| v in s.uses && s.uses[v].entry == e && Has(s, v);
          assert Has(n, v);
        }
      }
    }
    forall v ensures UseInv(n, v) { assert UseInv(s, v) && PairInv(s, v, t); }
    forall v, w ensures PairInv(n, v, w) {
      assert PairInv(s, v, w) && UseInv(s, v) && UseInv(s, w) && PairInv(s, v, t) && PairInv(s, w, t);
    }
    forall k ensures KeyInv(n, k) { assert KeyInv(s, k); }
    forall k, l ensures KeysInv(n, k, l) { assert KeysInv(s, k, l); }
  }

  lemma LeaveKeeps(s: State, t: Thread)
    requires Inv(s) && t in s.uses && !Has(s, t) && s.uses[t].entry in s.entries && s.entries[s.uses[t].entry].refs > 0
    ensures Inv(Leave(s, t))
  {
    var n, mine := Leave(s, t), s.uses[t].entry;
    assert UseInv(s, t);
    forall e ensures EntryInv(n, e) {
      assert EntryInv(s, e);
      assert Users(n, e) == if e == mine then Users(s, e) - {t} else Users(s, e);
    }
    forall e ensures FreeInv(n, e) { StillFree(s, n, t, e); }
    forall v ensures UseInv(n, v) { LastOut(s, t, v); }
    forall v, w ensures PairInv(n, v, w) { assert PairInv(s, v, w); }
    forall k ensures KeyInv(n, k) { assert KeyInv(s, k) && KeysInv(s, k, s.uses[t].key); }
    forall k, l ensures KeysInv(n, k, l) { assert KeysInv(s, k, l); }
  }

  /** Whoever still uses an entry keeps it on the map: the last reference is the one that deletes it. */
  lemma LastOut(s: State, t: Thread, v: Thread)
    requires Inv(s) && t in s.uses && !Has(s, t) && s.uses[t].entry in s.entries && s.entries[s.uses[t].entry].refs > 0
    ensures UseInv(Leave(s, t), v)
  {
    var mine := s.uses[t].entry;
    assert UseInv(s, v) && UseInv(s, t) && EntryInv(s, mine);
    if v != t && v in s.uses {
      assert KeysInv(s, s.uses[v].key, s.uses[t].key);
      if s.uses[v].entry == mine {
        assert {t, v} <= Users(s, mine);
        assert |{t, v}| == 2 && |Users(s, mine) - {t, v}| + 2 == |Users(s, mine)|;
      }
    }
  }

  lemma StepKeeps(s: State, step: Step)
    requires Inv(s)
    ensures Inv(Next(s, step))
  {
    if Next(s, step) != s {
      match step
      case Arrive(_, _, _) => ArriveKeeps(s, step);
      case GiveUp(t) => LeaveKeeps(s, t);
      case Drop(t) => LeaveKeeps(s, t);
      case Take(t) => StagedKeeps(s, t, Taken, false);
      case Refuse(t) => StagedKeeps(s, t, Returned, true);
      case Enter(t) => StagedKeeps(s, t, Holding, false);
      case Put(t) => StagedKeeps(s, t, Returned, true);
    }
  }

  lemma {:induction false} RunKeeps(s: State, steps: seq<Step>)
    requires Inv(s)
    ensures Inv(Exec(s, steps))
  {
    if steps != [] {
      RunKeeps(s, steps[..|steps| - 1]);
      StepKeeps(Exec(s, steps[..|steps| - 1]), steps[|steps| - 1]);
    }
  }

  lemma IdleInv()
    ensures Inv(IDLE)
  {
    forall e ensures EntryInv(IDLE, e) {}
  }

  // What holds in every reachable state

  ghost predicate Reachable(s: State) {
    exists steps :: s == Exec(IDLE, steps)
  }

  lemma ReachableInv(s: State)
    requires Reachable(s)
    ensures Inv(s)
  {
    var steps :| s == Exec(IDLE, steps);
    IdleInv();
    RunKeeps(IDLE, steps);
  }

  predicate Holds(s: State, t: Thread, k: Key) {
    t in s.uses && s.uses[t].key == k && s.uses[t].stage.Holding?
  }

  /** However entries come and go, two threads never hold one key at once. */
  lemma MutualExclusion(s: State, t: Thread, v: Thread, k: Key)
    requires Reachable(s)
    ensures Holds(s, t, k) && Holds(s, v, k) ==> t == v
  {
    ReachableInv(s);
    HoldersAgree(s, t, v, k);
  }

  lemma HoldersAgree(s: State, t: Thread, v: Thread, k: Key)
    requires Inv(s)
    ensures Holds(s, t, k) && Holds(s, v, k) ==> t == v
  {
    assert UseInv(s, t) && UseInv(s, v) && PairInv(s, t, v);
  }

  /**
   The map holds exactly the keys somebody refers to, through the entry they all refer to; a token is
   never put into a full channel; and while a key is wanted its token is either free or in use.
   */
  lemma EntriesExact(s: State, t: Thread, k: Key)
    requires Reachable(s)
    ensures t in s.uses ==>
              s.uses[t].key in s.locks && s.locks[s.uses[t].key] == s.uses[t].entry && s.uses[t].entry in s.entries
    ensures k in s.locks ==> exists v :: v in s.uses && s.uses[v].key == k && s.uses[v].entry == s.locks[k]
    ensures Has(s, t) ==> !s.entries[s.uses[t].entry].free
    ensures k in s.locks && s.locks[k] in s.entries && !s.entries[s.locks[k]].free ==>
              exists v :: Has(s, v) && s.uses[v].key == k
  {
    ReachableInv(s);
    assert UseInv(s, t);
    if k in s.locks {
      assert KeyInv(s, k) && EntryInv(s, s.locks[k]) && FreeInv(s, s.locks[k]);
      var v :| v in Users(s, s.locks[k]);
      assert UseInv(s, v) && KeysInv(s, k, s.uses[v].key);
      if !s.entries[s.locks[k]].free {
        var w :| w in s.uses && s.uses[w].entry == s.locks[k] && Has(s, w);
        assert UseInv(s, w) && KeysInv(s, k, s.uses[w].key);
      }
    }
  }

  // What each step brings about

  /** Whoever asks for a key waits for it, at the entry everybody else waits at. */
  lemma ArrivalWaits(s: State, t: Thread, k: Key, spare: EntryId)
    requires Inv(s) && t !in s.uses && spare !in s.entries
    ensures var n := Next(s, Arrive(t, k, spare));
            && k in n.locks && t in n.uses && n.uses[t] == Use(k, n.locks[k], Waiting)
            && (k in s.locks ==> n.locks[k] == s.locks[k])
            && n.locks[k] in n.entries && (k !in s.locks ==> n.entries[n.locks[k]].free)
  {
    assert KeyInv(s, k);
  }

  /** Whoever waits may give up at any time, and is then no longer counted. */
  lemma GivingUpTakes(s: State, t: Thread)
    requires Inv(s) && t in s.uses && s.uses[t].stage.Waiting?
    ensures t !in Next(s, GiveUp(t)).uses
  {
    StillCounted(s, t);
  }

  lemma StillCounted(s: State, t: Thread)
    requires Inv(s) && t in s.uses
    ensures s.uses[t].entry in s.entries && s.entries[s.uses[t].entry].refs > 0
  {
    assert UseInv(s, t) && EntryInv(s, s.uses[t].entry);
    assert t in Users(s, s.uses[t].entry);
  }

  /** A free key goes to whoever takes it. */
  lemma FreeIsTaken(s: State, t: Thread)
    requires Inv(s) && t in s.uses && s.uses[t].stage.Waiting? && s.uses[t].entry in s.entries
    requires s.entries[s.uses[t].entry].free
    ensures Holds(Next(Next(s, Take(t)), Enter(t)), t, s.uses[t].key)
  {
    StillCounted(s, t);
  }

  /** Whoever has the token can always give it back, entered or not, and then it is free for the others. */
  lemma TokenGivenBack(s: State, v: Thread) returns (n: State, steps: seq<Step>)
    requires Inv(s) && Has(s, v)
    ensures n == Exec(s, steps) && Inv(n) && v in n.uses && n.uses[v].stage.Returned?
    ensures s.uses[v].entry in n.entries && n.entries[s.uses[v].entry].free
    ensures forall t :: t in s.uses && t != v ==> t in n.uses && n.uses[t] == s.uses[t]
    ensures v !in Next(n, Drop(v)).uses
  {
    StillCounted(s, v);
    var step := if s.uses[v].stage.Taken? then Refuse(v) else Put(v);
    StepKeeps(s, step);
    n, steps := Next(s, step), [step];
    assert steps[..0] == [];
    StillCounted(n, v);
  }

  /** Nobody is shut out: a waiting thread can have its key as soon as whoever has the token gives it back. */
  lemma NobodyShutOut(s: State, t: Thread) returns (steps: seq<Step>)
    requires Reachable(s) && t in s.uses && s.uses[t].stage.Waiting?
    ensures Holds(Exec(s, steps), t, s.uses[t].key)
  {
    ReachableInv(s);
    StillCounted(s, t);
    var n := s;
    steps := [];
    if !s.entries[s.uses[t].entry].free {
      assert FreeInv(s, s.uses[t].entry);
      var v :| v in s.uses && s.uses[v].entry == s.uses[t].entry && Has(s, v);
      n, steps := TokenGivenBack(s, v);
    }
    assert n.uses[t] == s.uses[t];
    FreeIsTaken(n, t);
    ExecSnoc(s, steps, Take(t));
    ExecSnoc(s, steps + [Take(t)], Enter(t));
    steps := steps + [Take(t)] + [Enter(t)];
  }

  lemma ExecSnoc(s: State, steps: seq<Step>, step: Step)
    ensures Exec(s, steps + [step]) == Next(Exec(s, steps), step)
  {
    assert (steps + [step])[..|steps|] == steps;
  }
}
