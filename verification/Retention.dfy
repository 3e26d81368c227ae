/**
 Retention ordinals of one root peer. A delivery reads the largest ordinal the broker knows while it
 holds the root's lock, asks the root for a slot above it, and marks the package delivered under the
 ordinal it got. Messages to the root can be carried out after their delivery is over; the root may
 evict packages or come back with all its state lost; the broker forgets old rows and may restart.
 */
module Retention {
  import L = RelayLocks

  type Package = nat
  type AttemptId = nat

  datatype Option<T> = None | Some(value: T)

  /** A delivery under way: the floor it read, whether it has asked the root, what the root answered. */
  datatype Attempt = Attempt(id: AttemptId, package: Package, floor: nat, sent: bool, ordinal: Option<nat>)
  datatype Begin = Begin(package: Package, floor: nat)

  /** A package the root holds or is receiving; `answered` remembers that its attempt heard about it. */
  datatype Slot = Slot(attempt: AttemptId, ordinal: nat, available: bool, answered: bool)

  /** `rows` are the broker's delivered rows, `marked` every one it ever had. */
  datatype State = State(
    lock: L.State, attempts: map<L.Thread, Attempt>, issued: nat,
    rows: map<Package, nat>, marked: map<Package, nat>,
    last: nat, slots: map<Package, Slot>, begins: map<AttemptId, Begin>, finishes: set<AttemptId>)

  datatype DeliveryStep = ReadFloor(package: Package, floor: nat) | SendBegin | SendFinish | Mark
  datatype RootStep =
    | RootBegins(attempt: AttemptId, thread: L.Thread)
    | RootFinishes(attempt: AttemptId, package: Package)
    | Remove(package: Package)
    | LoseState
  datatype Step =
    | Lock(lock: L.Step)
    | Delivery(thread: L.Thread, delivery: DeliveryStep)
    | Root(root: RootStep)
    | Compact(package: Package, high: nat)
    | Restart

  const ROOT: L.Key := 0

  const FRESH := State(L.IDLE, map[], 0, map[], map[], 0, map[], map[], {})

  /** The largest ordinal among the rows, or 0 when there is none. */
  ghost predicate IsHighwater(rows: map<Package, nat>, h: nat) {
    (forall p :: p in rows ==> rows[p] <= h) && (h == 0 || exists p :: p in rows && rows[p] == h)
  }

  lemma HighwaterUnique(rows: map<Package, nat>, g: nat, h: nat)
    requires IsHighwater(rows, g) && IsHighwater(rows, h)
    ensures g == h
  {
  }

  function Max(a: nat, b: nat): nat { if a < b then b else a }

  ghost function DeliveryNext(s: State, t: L.Thread, step: DeliveryStep): State {
    match step
    case ReadFloor(p, floor) =>
      if L.Holds(s.lock, t, ROOT) && t !in s.attempts && IsHighwater(s.rows, floor) then
        s.(attempts := s.attempts[t := Attempt(s.issued, p, floor, false, None)], issued := s.issued + 1)
      else s
    case SendBegin =>
      if t in s.attempts && !s.attempts[t].sent then
        s.(attempts := s.attempts[t := s.attempts[t].(sent := true)],
           begins := s.begins[s.attempts[t].id := Begin(s.attempts[t].package, s.attempts[t].floor)])
      else s
    case SendFinish =>
      if t in s.attempts && s.attempts[t].ordinal.Some? then s.(finishes := s.finishes + {s.attempts[t].id}) else s
    case Mark =>
      if t !in s.attempts || s.attempts[t].ordinal.None? then s
      else if s.attempts[t].package in s.marked then s.(attempts := s.attempts - {t})
      else Marked(s, t)
  }

  ghost function Marked(s: State, t: L.Thread): State
    requires t in s.attempts && s.attempts[t].ordinal.Some?
  {
    var p, o := s.attempts[t].package, s.attempts[t].ordinal.value;
    s.(attempts := s.attempts - {t}, rows := s.rows[p := o], marked := s.marked[p := o])
  }

  /** An answer reaches the attempt it is for, if that is still waiting. */
  ghost function Answered(s: State, a: AttemptId, t: L.Thread, ordinal: nat): State {
    if t in s.attempts && s.attempts[t].id == a then
      s.(attempts := s.attempts[t := s.attempts[t].(ordinal := Some(ordinal))])
    else s
  }

  ghost function RootNext(s: State, step: RootStep): State {
    match step
    case RootBegins(a, t) => if a in s.begins then Begun(s, a, t) else s
    case RootFinishes(a, p) =>
      if a in s.finishes && p in s.slots && s.slots[p].attempt == a then
        s.(slots := s.slots[p := s.slots[p].(available := true)])
      else s
    case Remove(p) => s.(slots := s.slots - {p})
    case LoseState => s.(slots := map[], last := 0)
  }

  ghost function Begun(s: State, a: AttemptId, t: L.Thread): State
    requires a in s.begins
  {
    var b, u := s.begins[a], s.(begins := s.begins - {a});
    if b.package in s.slots then
      if s.slots[b.package].available then Answered(u, a, t, s.slots[b.package].ordinal) else u
    else
      var o := Max(s.last, b.floor) + 1;
      var heard := t in s.attempts && s.attempts[t].id == a;
      Answered(u.(last := o, slots := s.slots[b.package := Slot(a, o, false, heard)]), a, t, o)
  }

  ghost function Next(s: State, step: Step): State {
    match step
    case Lock(x) => s.(lock := L.Next(s.lock, x), attempts := if x.Put? then s.attempts - {x.thread} else s.attempts)
    case Delivery(t, x) => DeliveryNext(s, t, x)
    case Root(x) => RootNext(s, x)
    case Compact(p, h) => if p in s.rows && IsHighwater(s.rows, h) && s.rows[p] < h then s.(rows := s.rows - {p}) else s
    case Restart => s.(lock := L.IDLE, attempts := map[])
  }

  ghost function Exec(s: State, steps: seq<Step>): State {
    if steps == [] then s else Next(Exec(s, steps[..|steps| - 1]), steps[|steps| - 1])
  }

  // The invariant

  ghost predicate AttemptInv(s: State, t: L.Thread) {
    t in s.attempts ==>
      var x := s.attempts[t];
      && L.Holds(s.lock, t, ROOT) && x.id < s.issued && IsHighwater(s.rows, x.floor)
      && (!x.sent ==> x.id !in s.begins && x.ordinal.None?)
      && (x.id in s.begins ==> s.begins[x.id] == Begin(x.package, x.floor) && x.ordinal.None?)
  }

  /** An answer in hand belongs to no other package, marked or held. */
  ghost predicate AnswerInv(s: State, t: L.Thread, p: Package) {
    t in s.attempts && s.attempts[t].ordinal.Some? && p != s.attempts[t].package ==>
      && (p in s.marked ==> s.marked[p] != s.attempts[t].ordinal.value)
      && (p in s.slots && s.slots[p].answered ==> s.slots[p].ordinal != s.attempts[t].ordinal.value)
  }

  /** An attempt that has not asked yet, or whose request is still on its way, has left no trace. */
  ghost predicate IdInv(s: State, a: AttemptId) {
    && (a in s.begins ==> a < s.issued && a !in s.finishes)
    && (a in s.finishes ==> a < s.issued)
  }

  ghost predicate UnsentInv(s: State, t: L.Thread) {
    t in s.attempts && s.attempts[t].ordinal.None? ==> s.attempts[t].id !in s.finishes
  }

  ghost predicate SlotInv(s: State, p: Package) {
    p in s.slots ==>
      && s.slots[p].ordinal <= s.last && s.slots[p].attempt < s.issued && s.slots[p].attempt !in s.begins
      && (s.slots[p].available || s.slots[p].attempt in s.finishes ==> s.slots[p].answered)
  }

  /** An attempt has a slot only if it asked, and has heard of it unless the answer went astray. */
  ghost predicate HeardInv(s: State, t: L.Thread, p: Package) {
    t in s.attempts && p in s.slots && s.slots[p].attempt == s.attempts[t].id ==>
      s.attempts[t].sent && (s.slots[p].answered || s.attempts[t].ordinal.None?)
  }

  ghost predicate PairInv(s: State, p: Package, q: Package) {
    p != q ==>
      && (p in s.slots && q in s.slots ==> s.slots[p].ordinal != s.slots[q].ordinal)
      && (p in s.slots && s.slots[p].answered && q in s.marked ==> s.slots[p].ordinal != s.marked[q])
      && (p in s.marked && q in s.marked ==> s.marked[p] != s.marked[q])
  }

  ghost predicate MarkedInv(s: State, p: Package) {
    && (p in s.rows ==> p in s.marked && s.marked[p] == s.rows[p])
    && (p in s.marked ==> forall h :: IsHighwater(s.rows, h) ==> s.marked[p] <= h)
  }

  ghost predicate Inv(s: State) {
    && L.Inv(s.lock)
    && (forall t :: AttemptInv(s, t))
    && (forall t :: UnsentInv(s, t))
    && (forall t, p :: AnswerInv(s, t, p))
    && (forall t, p :: HeardInv(s, t, p))
    && (forall a :: IdInv(s, a))
    && (forall p :: SlotInv(s, p))
    && (forall p, q :: PairInv(s, p, q))
    && (forall p :: MarkedInv(s, p))
  }

  lemma OneAttempt(s: State, t: L.Thread, v: L.Thread)
    requires Inv(s) && t in s.attempts && v in s.attempts
    ensures t == v
  {
    assert AttemptInv(s, t) && AttemptInv(s, v);
    L.HoldersAgree(s.lock, t, v, ROOT);
  }

  /** A step that only takes attempts away, or moves the lock without letting a holder go, keeps everything. */
  lemma FewerKeeps(s: State, n: State)
    requires Inv(s) && L.Inv(n.lock)
    requires n == s.(lock := n.lock, attempts := n.attempts)
    requires forall t :: t in n.attempts ==>
               t in s.attempts && n.attempts[t] == s.attempts[t] && L.Holds(n.lock, t, ROOT)
    ensures Inv(n)
  {
    forall t ensures AttemptInv(n, t) && UnsentInv(n, t) { assert AttemptInv(s, t) && UnsentInv(s, t); }
    forall t, p ensures AnswerInv(n, t, p) { assert AnswerInv(s, t, p); }
    forall t, p ensures HeardInv(n, t, p) { assert HeardInv(s, t, p); }
    forall a ensures IdInv(n, a) { assert IdInv(s, a); }
    forall p ensures SlotInv(n, p) { assert SlotInv(s, p); }
    forall p, q ensures PairInv(n, p, q) { assert PairInv(s, p, q); }
    forall p ensures MarkedInv(n, p) { assert MarkedInv(s, p); }
  }

  lemma LockKeeps(s: State, x: L.Step)
    requires Inv(s)
    ensures Inv(Next(s, Lock(x)))
  {
    L.StepKeeps(s.lock, x);
    var n := Next(s, Lock(x));
    forall t | t in n.attempts ensures L.Holds(n.lock, t, ROOT) { assert AttemptInv(s, t); }
    FewerKeeps(s, n);
  }

  lemma ReadFloorKeeps(s: State, t: L.Thread, p: Package, floor: nat)
    requires Inv(s) && L.Holds(s.lock, t, ROOT) && t !in s.attempts && IsHighwater(s.rows, floor)
    ensures Inv(DeliveryNext(s, t, ReadFloor(p, floor)))
  {
    var n := DeliveryNext(s, t, ReadFloor(p, floor));
    assert IdInv(s, s.issued);
    forall v ensures AttemptInv(n, v) && UnsentInv(n, v) { assert AttemptInv(s, v) && UnsentInv(s, v); }
    forall v, q ensures AnswerInv(n, v, q) { assert AnswerInv(s, v, q); }
    forall v, q ensures HeardInv(n, v, q) { assert HeardInv(s, v, q) && SlotInv(s, q); }
    forall a ensures IdInv(n, a) { assert IdInv(s, a); }
    forall q ensures SlotInv(n, q) { assert SlotInv(s, q); }
    forall q, r ensures PairInv(n, q, r) { assert PairInv(s, q, r); }
    forall q ensures MarkedInv(n, q) { assert MarkedInv(s, q); }
  }

  lemma SendBeginKeeps(s: State, t: L.Thread)
    requires Inv(s) && t in s.attempts && !s.attempts[t].sent
    ensures Inv(DeliveryNext(s, t, SendBegin))
  {
    var n := DeliveryNext(s, t, SendBegin);
    assert AttemptInv(s, t) && UnsentInv(s, t);
    forall v ensures AttemptInv(n, v) && UnsentInv(n, v) {
      assert AttemptInv(s, v) && UnsentInv(s, v);
      if v in s.attempts { OneAttempt(s, t, v); }
    }
    forall v, q ensures AnswerInv(n, v, q) { assert AnswerInv(s, v, q); }
    forall v, q ensures HeardInv(n, v, q) { assert HeardInv(s, v, q); }
    forall a ensures IdInv(n, a) { assert IdInv(s, a); }
    forall q ensures SlotInv(n, q) { assert SlotInv(s, q) && HeardInv(s, t, q); }
    forall q, r ensures PairInv(n, q, r) { assert PairInv(s, q, r); }
    forall q ensures MarkedInv(n, q) { assert MarkedInv(s, q); }
  }

  lemma SendFinishKeeps(s: State, t: L.Thread)
    requires Inv(s) && t in s.attempts && s.attempts[t].ordinal.Some?
    ensures Inv(DeliveryNext(s, t, SendFinish))
  {
    var n := DeliveryNext(s, t, SendFinish);
    assert AttemptInv(s, t);
    forall v ensures AttemptInv(n, v) && UnsentInv(n, v) {
      assert AttemptInv(s, v) && UnsentInv(s, v);
      if v in s.attempts { OneAttempt(s, t, v); }
    }
    forall v, q ensures AnswerInv(n, v, q) { assert AnswerInv(s, v, q); }
    forall v, q ensures HeardInv(n, v, q) { assert HeardInv(s, v, q); }
    forall a ensures IdInv(n, a) { assert IdInv(s, a); }
    forall q ensures SlotInv(n, q) { assert SlotInv(s, q) && HeardInv(s, t, q); }
    forall q, r ensures PairInv(n, q, r) { assert PairInv(s, q, r); }
    forall q ensures MarkedInv(n, q) { assert MarkedInv(s, q); }
  }

  lemma HighwaterRaised(s: State, t: L.Thread, q: Package, h: nat)
    requires Inv(s) && t in s.attempts && s.attempts[t].ordinal.Some? && s.attempts[t].package !in s.marked
    requires q in Marked(s, t).marked && IsHighwater(Marked(s, t).rows, h)
    ensures Marked(s, t).marked[q] <= h
  {
    var n, p, floor := Marked(s, t), s.attempts[t].package, s.attempts[t].floor;
    assert AttemptInv(s, t) && MarkedInv(s, q) && MarkedInv(s, p);
    if q != p {
      if floor > 0 {
        var top :| top in s.rows && s.rows[top] == floor;
        assert n.rows[top] == floor;
      }
    } else {
      assert n.rows[p] <= h;
    }
  }

  lemma MarkKeeps(s: State, t: L.Thread)
    requires Inv(s) && t in s.attempts && s.attempts[t].ordinal.Some? && s.attempts[t].package !in s.marked
    ensures Inv(Marked(s, t))
  {
    var n := Marked(s, t);
    forall v ensures v !in n.attempts { if v in s.attempts { OneAttempt(s, t, v); } }
    forall v ensures AttemptInv(n, v) && UnsentInv(n, v) {}
    forall a ensures IdInv(n, a) { assert IdInv(s, a); }
    forall q ensures SlotInv(n, q) { assert SlotInv(s, q); }
    forall q, r ensures PairInv(n, q, r) { assert PairInv(s, q, r) && AnswerInv(s, t, q) && AnswerInv(s, t, r); }
    forall q ensures MarkedInv(n, q) {
      assert MarkedInv(s, q);
      if q in n.marked {
        forall h | IsHighwater(n.rows, h) ensures n.marked[q] <= h { HighwaterRaised(s, t, q, h); }
      }
    }
  }

  lemma DeliveryKeeps(s: State, t: L.Thread, step: DeliveryStep)
    requires Inv(s)
    ensures Inv(DeliveryNext(s, t, step))
  {
    if DeliveryNext(s, t, step) != s {
      match step
      case ReadFloor(p, floor) => ReadFloorKeeps(s, t, p, floor);
      case SendBegin => SendBeginKeeps(s, t);
      case SendFinish => SendFinishKeeps(s, t);
      case Mark =>
        if s.attempts[t].package in s.marked {
          forall v | v in s.attempts ensures L.Holds(s.lock, v, ROOT) { assert AttemptInv(s, v); }
          FewerKeeps(s, s.(attempts := s.attempts - {t}));
        } else {
          MarkKeeps(s, t);
        }
    }
  }

  // The root's side

  /**
   The slot a carried-out request makes: above everything the root remembers and, if it is heard,
   everything ever marked; and no higher than that takes.
   */
  lemma NewOrdinal(s: State, a: AttemptId, t: L.Thread, p: Package)
    requires Inv(s) && a in s.begins && s.begins[a].package !in s.slots
    ensures var n, made := Begun(s, a, t), s.begins[a].package;
            && made in n.slots && n.slots[made].attempt == a && !n.slots[made].available
            && n.slots[made].ordinal == n.last > s.last && n.last > s.begins[a].floor
            && (n.last == s.last + 1 || n.last == s.begins[a].floor + 1)
            && (p in s.slots ==> s.slots[p].ordinal < n.slots[made].ordinal)
            && (t in s.attempts && s.attempts[t].id == a ==>
                 && t in n.attempts && n.attempts[t].ordinal == Some(n.slots[made].ordinal)
                 && (p in s.marked ==> s.marked[p] < n.slots[made].ordinal))
  {
    assert SlotInv(s, p) && AttemptInv(s, t) && MarkedInv(s, p);
  }

  lemma BegunAnswers(s: State, a: AttemptId, t: L.Thread, v: L.Thread, q: Package)
    requires Inv(s) && a in s.begins && s.begins[a].package !in s.slots
    ensures AnswerInv(Begun(s, a, t), v, q)
  {
    assert AnswerInv(s, v, q) && AttemptInv(s, v);
    if v in s.attempts && t in s.attempts { OneAttempt(s, t, v); }
    NewOrdinal(s, a, v, q);
  }

  lemma BegunPairs(s: State, a: AttemptId, t: L.Thread, q: Package, r: Package)
    requires Inv(s) && a in s.begins && s.begins[a].package !in s.slots
    ensures PairInv(Begun(s, a, t), q, r)
  {
    assert PairInv(s, q, r);
    NewOrdinal(s, a, t, q);
    NewOrdinal(s, a, t, r);
  }

  lemma BegunFreshKeeps(s: State, a: AttemptId, t: L.Thread)
    requires Inv(s) && a in s.begins && s.begins[a].package !in s.slots
    ensures Inv(Begun(s, a, t))
  {
    var n := Begun(s, a, t);
    assert IdInv(s, a);
    forall v ensures AttemptInv(n, v) && UnsentInv(n, v) {
      assert AttemptInv(s, v) && UnsentInv(s, v);
    }
    forall v, q ensures AnswerInv(n, v, q) { BegunAnswers(s, a, t, v, q); }
    forall v, q ensures HeardInv(n, v, q) {
      assert HeardInv(s, v, q) && SlotInv(s, q) && AttemptInv(s, v);
      if v in s.attempts && t in s.attempts { OneAttempt(s, t, v); }
    }
    forall b ensures IdInv(n, b) { assert IdInv(s, b); }
    forall q ensures SlotInv(n, q) { assert SlotInv(s, q); }
    forall q, r ensures PairInv(n, q, r) { BegunPairs(s, a, t, q, r); }
    forall q ensures MarkedInv(n, q) { assert MarkedInv(s, q); }
  }

  lemma BegunAgainKeeps(s: State, a: AttemptId, t: L.Thread)
    requires Inv(s) && a in s.begins && s.begins[a].package in s.slots
    ensures Inv(Begun(s, a, t))
  {
    var n, known := Begun(s, a, t), s.begins[a].package;
    assert IdInv(s, a) && SlotInv(s, known);
    forall v ensures AttemptInv(n, v) && UnsentInv(n, v) { assert AttemptInv(s, v) && UnsentInv(s, v); }
    forall v, q ensures AnswerInv(n, v, q) {
      assert AnswerInv(s, v, q) && AttemptInv(s, v) && PairInv(s, known, q) && PairInv(s, q, known);
    }
    forall v, q ensures HeardInv(n, v, q) { assert HeardInv(s, v, q) && SlotInv(s, q) && AttemptInv(s, v); }
    forall b ensures IdInv(n, b) { assert IdInv(s, b); }
    forall q ensures SlotInv(n, q) { assert SlotInv(s, q); }
    forall q, r ensures PairInv(n, q, r) { assert PairInv(s, q, r); }
    forall q ensures MarkedInv(n, q) { assert MarkedInv(s, q); }
  }

  lemma RootKeeps(s: State, step: RootStep)
    requires Inv(s)
    ensures Inv(RootNext(s, step))
  {
    if step.RootBegins? {
      if step.attempt in s.begins {
        if s.begins[step.attempt].package in s.slots {
          BegunAgainKeeps(s, step.attempt, step.thread);
        } else {
          BegunFreshKeeps(s, step.attempt, step.thread);
        }
      }
    } else {
      var n := RootNext(s, step);
      forall v ensures AttemptInv(n, v) && UnsentInv(n, v) { assert AttemptInv(s, v) && UnsentInv(s, v); }
      forall v, q ensures AnswerInv(n, v, q) { assert AnswerInv(s, v, q); }
      forall v, q ensures HeardInv(n, v, q) { assert HeardInv(s, v, q); }
      forall b ensures IdInv(n, b) { assert IdInv(s, b); }
      forall q ensures SlotInv(n, q) { assert SlotInv(s, q); }
      forall q, r ensures PairInv(n, q, r) { assert PairInv(s, q, r); }
      forall q ensures MarkedInv(n, q) { assert MarkedInv(s, q); }
    }
  }

  /** Forgetting an old row does not move the largest ordinal. */
  lemma StillHighwater(rows: map<Package, nat>, p: Package, h: nat, g: nat)
    requires p in rows && IsHighwater(rows, h) && rows[p] < h
    ensures IsHighwater(rows - {p}, g) <==> g == h
  {
    var top :| top in rows && rows[top] == h;
    assert top in rows - {p};
  }

  lemma CompactKeeps(s: State, p: Package, h: nat)
    requires Inv(s) && p in s.rows && IsHighwater(s.rows, h) && s.rows[p] < h
    ensures Inv(s.(rows := s.rows - {p}))
  {
    var n := s.(rows := s.rows - {p});
    forall v ensures AttemptInv(n, v) && UnsentInv(n, v) {
      assert AttemptInv(s, v) && UnsentInv(s, v);
      if v in s.attempts {
        HighwaterUnique(s.rows, h, s.attempts[v].floor);
        StillHighwater(s.rows, p, h, s.attempts[v].floor);
      }
    }
    forall v, q ensures AnswerInv(n, v, q) { assert AnswerInv(s, v, q); }
    forall v, q ensures HeardInv(n, v, q) { assert HeardInv(s, v, q); }
    forall b ensures IdInv(n, b) { assert IdInv(s, b); }
    forall q ensures SlotInv(n, q) { assert SlotInv(s, q); }
    forall q, r ensures PairInv(n, q, r) { assert PairInv(s, q, r); }
    forall q ensures MarkedInv(n, q) {
      assert MarkedInv(s, q);
      forall g | IsHighwater(n.rows, g) ensures g == h { StillHighwater(s.rows, p, h, g); }
    }
  }

  lemma StepKeeps(s: State, step: Step)
    requires Inv(s)
    ensures Inv(Next(s, step))
  {
    match step
    case Lock(x) => LockKeeps(s, x);
    case Delivery(t, x) => DeliveryKeeps(s, t, x);
    case Root(x) => RootKeeps(s, x);
    case Compact(p, h) => if Next(s, step) != s { CompactKeeps(s, p, h); }
    case Restart =>
      L.IdleInv();
      FewerKeeps(s, Next(s, step));
  }

  lemma {:induction false} RunKeeps(steps: seq<Step>)
    ensures Inv(Exec(FRESH, steps))
  {
    if steps == [] {
      L.IdleInv();
    } else {
      RunKeeps(steps[..|steps| - 1]);
      StepKeeps(Exec(FRESH, steps[..|steps| - 1]), steps[|steps| - 1]);
    }
  }

  // What holds in every reachable state

  ghost predicate Reachable(s: State) {
    exists steps :: s == Exec(FRESH, steps)
  }

  lemma ReachableInv(s: State)
    requires Reachable(s)
    ensures Inv(s)
  {
    var steps :| s == Exec(FRESH, steps);
    RunKeeps(steps);
  }

  /** The floor a delivery read is still the largest ordinal the broker knows whenever it goes on to mark. */
  lemma FloorStillHighwater(s: State, t: L.Thread)
    requires Reachable(s)
    ensures t in s.attempts ==> forall h :: IsHighwater(s.rows, h) <==> h == s.attempts[t].floor
  {
    ReachableInv(s);
    assert AttemptInv(s, t);
  }

  /**
   No two packages are ever marked delivered to the root under one ordinal, and no row outgrows the
   largest known one.
   */
  lemma OrdinalsUnique(s: State, p: Package, q: Package)
    requires Reachable(s)
    ensures p != q && p in s.marked && q in s.marked ==> s.marked[p] != s.marked[q]
    ensures p in s.marked ==> forall h :: IsHighwater(s.rows, h) ==> s.marked[p] <= h
  {
    ReachableInv(s);
    assert PairInv(s, p, q) && MarkedInv(s, p);
  }

  // What each step brings about

  /** Whoever holds the lock reads the largest ordinal and asks the root for a slot above it. */
  lemma AskingTakes(s: State, t: L.Thread, p: Package, floor: nat)
    requires Inv(s) && L.Holds(s.lock, t, ROOT) && t !in s.attempts && IsHighwater(s.rows, floor)
    ensures var n := Next(Next(s, Delivery(t, ReadFloor(p, floor))), Delivery(t, SendBegin));
            && Inv(n) && t in n.attempts && n.attempts[t] == Attempt(s.issued, p, floor, true, None)
            && s.issued in n.begins && n.begins[s.issued] == Begin(p, floor)
            && n.slots == s.slots && n.marked == s.marked && n.rows == s.rows && n.last == s.last
  {
    ReadFloorKeeps(s, t, p, floor);
    SendBeginKeeps(DeliveryNext(s, t, ReadFloor(p, floor)), t);
  }

  /** What the root answers: the slot it makes, the one it already has if that is available, or nothing. */
  lemma AnswerTakes(s: State, t: L.Thread)
    requires Inv(s) && t in s.attempts && s.attempts[t].id in s.begins
    ensures var n, p := Begun(s, s.attempts[t].id, t), s.attempts[t].package;
            && t in n.attempts && n.attempts[t].package == p && n.marked == s.marked && n.rows == s.rows
            && (p !in s.slots ==> p in n.slots && n.attempts[t].ordinal == Some(n.slots[p].ordinal))
            && (p in s.slots && s.slots[p].available ==> n.attempts[t].ordinal == Some(s.slots[p].ordinal))
            && (p in s.slots && !s.slots[p].available ==> n.attempts[t].ordinal.None?)
  {
    assert AttemptInv(s, t);
  }

  /** With an answer in hand the package is finished at the root and marked under its ordinal, unless it was before. */
  lemma MarkingTakes(s: State, t: L.Thread)
    requires Inv(s) && t in s.attempts && s.attempts[t].ordinal.Some?
    ensures var n, p, a := DeliveryNext(s, t, SendFinish), s.attempts[t].package, s.attempts[t].id;
            p in s.slots && s.slots[p].attempt == a ==> RootNext(n, RootFinishes(a, p)).slots[p].available
    ensures var n, p := DeliveryNext(s, t, Mark), s.attempts[t].package;
            && t !in n.attempts && p in n.marked
            && (if p in s.marked then n.marked == s.marked && n.rows == s.rows
                else n.marked[p] == s.attempts[t].ordinal.value && p in n.rows && n.rows[p] == n.marked[p])
  {
  }

  /** A delivery that nothing disturbs marks its package, under an ordinal above every one marked before. */
  lemma DeliveryMarks(s: State, t: L.Thread, p: Package, floor: nat, q: Package) returns (n: State)
    requires Inv(s) && L.Holds(s.lock, t, ROOT) && t !in s.attempts && IsHighwater(s.rows, floor)
    requires p !in s.slots && p !in s.marked
    ensures n == Exec(s, [Delivery(t, ReadFloor(p, floor)), Delivery(t, SendBegin), Root(RootBegins(s.issued, t)),
                          Delivery(t, Mark)])
    ensures p in n.rows && p in n.marked && n.rows[p] == n.marked[p] && (q in s.marked ==> s.marked[q] < n.marked[p])
  {
    AskingTakes(s, t, p, floor);
    var asked := Next(Next(s, Delivery(t, ReadFloor(p, floor))), Delivery(t, SendBegin));
    NewOrdinal(asked, s.issued, t, q);
    BegunFreshKeeps(asked, s.issued, t);
    MarkingTakes(Begun(asked, s.issued, t), t);
    n := DeliveryNext(Begun(asked, s.issued, t), t, Mark);
    ExecFour(s, Delivery(t, ReadFloor(p, floor)), Delivery(t, SendBegin), Root(RootBegins(s.issued, t)),
             Delivery(t, Mark));
  }

  lemma ExecFour(s: State, a: Step, b: Step, c: Step, d: Step)
    ensures Exec(s, [a, b, c, d]) == Next(Next(Next(Next(s, a), b), c), d)
  {
    assert [a][..0] == [] && Exec(s, [a]) == Next(s, a);
    assert [a, b][..1] == [a] && Exec(s, [a, b]) == Next(Exec(s, [a]), b);
    assert [a, b, c][..2] == [a, b] && Exec(s, [a, b, c]) == Next(Exec(s, [a, b]), c);
    assert [a, b, c, d][..3] == [a, b, c];
  }

  /** The lock moves as a lock does, a delivery ends with the lock it held, and state lost is lost. */
  lemma WorldTakes(s: State, x: L.Step, t: L.Thread)
    ensures var n := Next(s, Lock(x));
            && n.lock == L.Next(s.lock, x) && n.slots == s.slots && n.marked == s.marked
            && (t in n.attempts <==> t in s.attempts && x != L.Put(t))
    ensures var n := Next(s, Restart); n.lock == L.IDLE && n.attempts == map[] && n.rows == s.rows && n.slots == s.slots
    ensures var n := Next(s, Root(LoseState)); n.slots == map[] && n.last == 0 && n.rows == s.rows
  {
  }

  /** A row can be forgotten exactly while a larger one is kept, and what was marked stays marked. */
  lemma CompactTakes(s: State, p: Package, h: nat)
    requires Inv(s) && IsHighwater(s.rows, h) && p in s.rows
    ensures var n := Next(s, Compact(p, h)); (p !in n.rows <==> s.rows[p] < h) && n.marked == s.marked
    ensures p !in Next(s, Root(Remove(p))).slots
  {
  }
}
