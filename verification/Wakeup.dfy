/**
 Waiting for something new. A waiter subscribes to the streams it cares about, reads them, and only
 if it found nothing blocks until one of its watches is closed. A producer stores an item, then
 detaches the stream's watch, then closes it. The mailbox and the three tree notifiers are the same
 code; a mailbox wait has one stream, an agent wait four.
 */
module Wakeup {
  type Key = nat
  type WatchId = nat
  type WaiterId = nat

  datatype Watch = Watch(key: Key, waiters: nat, closed: bool)

  // The notifier

  class Notifier {
    var watches: map<Key, WatchId>
    var info: map<WatchId, Watch>

    constructor ()
      ensures watches == map[] && info == map[]
    {
      watches, info := map[], map[];
    }

    method Subscribe(key: Key, spare: WatchId) returns (id: WatchId)
      requires key in watches ==> watches[key] in info
      modifies this
      ensures (watches, info, id) == Subscribed(old(watches), old(info), key, spare)
    {
      if key !in watches {
        assert info[spare := Watch(key, 0, false)][spare := Watch(key, 1, false)]
            == info[spare := Watch(key, 1, false)];
        watches, info := watches[key := spare], info[spare := Watch(key, 0, false)];
      }
      id := watches[key];
      info := info[id := info[id].(waiters := info[id].waiters + 1)];
    }

    method Release(key: Key, id: WatchId)
      requires key in watches && watches[key] == id ==> id in info && info[id].waiters > 0
      modifies this
      ensures (watches, info) == Released(old(watches), old(info), key, id)
    {
      if key !in watches || watches[key] != id { return; }
      info := info[id := info[id].(waiters := info[id].waiters - 1)];
      if info[id].waiters == 0 { watches := watches - {key}; }
    }

    /** The watch to be closed once the mutex is free. */
    method Detach(key: Key) returns (detached: set<WatchId>)
      modifies this
      ensures watches == old(watches) - {key} && info == old(info)
      ensures detached == if key in old(watches) then {old(watches)[key]} else {}
    {
      detached := if key in watches then {watches[key]} else {};
      watches := watches - {key};
    }
  }

  function Subscribed(watches: map<Key, WatchId>, info: map<WatchId, Watch>, key: Key, spare: WatchId)
    : (map<Key, WatchId>, map<WatchId, Watch>, WatchId)
    requires key in watches ==> watches[key] in info
  {
    if key in watches then
      (watches, info[watches[key] := info[watches[key]].(waiters := info[watches[key]].waiters + 1)], watches[key])
    else (watches[key := spare], info[spare := Watch(key, 1, false)], spare)
  }

  function Released(watches: map<Key, WatchId>, info: map<WatchId, Watch>, key: Key, id: WatchId)
    : (map<Key, WatchId>, map<WatchId, Watch>)
    requires key in watches && watches[key] == id ==> id in info && info[id].waiters > 0
  {
    if key !in watches || watches[key] != id then (watches, info)
    else
      var left := info[id].waiters - 1;
      (if left == 0 then watches - {key} else watches, info[id := info[id].(waiters := left)])
  }

  // Whole runs

  datatype Stage = Subscribing(next: nat) | Reading(next: nat, found: bool) | Blocked | Releasing(again: bool)

  /** `seen` are the streams read without finding anything past the cursor. */
  datatype Waiter = Waiter(plan: seq<Key>, cursor: map<Key, nat>, subs: map<Key, WatchId>, seen: set<Key>, stage: Stage)

  /** `stored` counts the items of a stream, `due` its producers that have stored and not yet detached. */
  datatype State = State(
    watches: map<Key, WatchId>, info: map<WatchId, Watch>, closing: set<WatchId>,
    stored: map<Key, nat>, due: map<Key, nat>, waiters: map<WaiterId, Waiter>)

  const QUIET := State(map[], map[], {}, map[], map[], map[])

  datatype ProducerStep = Store(key: Key) | Detach(key: Key) | Close(watch: WatchId)
  datatype WaiterStep =
    | Begin(plan: seq<Key>, cursor: map<Key, nat>)
    | Subscribe(watch: WatchId) | Read | Wake(key: Key) | Stop | Release(key: Key) | Leave
  datatype Step = Producer(producer: ProducerStep) | Wait(id: WaiterId, wait: WaiterStep)

  function Count(m: map<Key, nat>, k: Key): nat {
    if k in m then m[k] else 0
  }

  function ProducerNext(s: State, step: ProducerStep): State {
    match step
    case Store(k) => s.(stored := s.stored[k := Count(s.stored, k) + 1], due := s.due[k := Count(s.due, k) + 1])
    case Detach(k) =>
      if Count(s.due, k) == 0 then s
      else if k in s.watches then
        s.(due := s.due[k := Count(s.due, k) - 1], watches := s.watches - {k}, closing := s.closing + {s.watches[k]})
      else s.(due := s.due[k := Count(s.due, k) - 1])
    case Close(id) =>
      if id in s.closing && id in s.info then
        s.(closing := s.closing - {id}, info := s.info[id := s.info[id].(closed := true)])
      else s
  }

  predicate Distinct(plan: seq<Key>) {
    forall i, j :: 0 <= i < j < |plan| ==> plan[i] != plan[j]
  }

  function With(s: State, w: WaiterId, x: Waiter): State {
    s.(waiters := s.waiters[w := x])
  }

  function WaiterNext(s: State, w: WaiterId, step: WaiterStep): State {
    if step.Begin? then
      if w in s.waiters || !Distinct(step.plan) then s
      else With(s, w, Waiter(step.plan, step.cursor, map[], {}, Subscribing(0)))
    else if w !in s.waiters then s
    else
      var x := s.waiters[w];
      match step
      case Begin(_, _) => s
      case Subscribe(id) => SubscribeNext(s, w, id)
      case Read => ReadNext(s, w)
      case Wake(k) =>
        if x.stage.Blocked? && k in x.subs && x.subs[k] in s.info && s.info[x.subs[k]].closed then
          With(s, w, x.(stage := Releasing(true), seen := {}))
        else s
      case Stop => if x.stage.Releasing? then s else With(s, w, x.(stage := Releasing(false), seen := {}))
      case Release(k) => ReleaseNext(s, w, k)
      case Leave =>
        if !x.stage.Releasing? || x.subs != map[] then s
        else if x.stage.again then With(s, w, x.(stage := Subscribing(0)))
        else s.(waiters := s.waiters - {w})
  }

  function SubscribeNext(s: State, w: WaiterId, id: WatchId): State
    requires w in s.waiters
  {
    var x := s.waiters[w];
    if !x.stage.Subscribing? || id in s.info then s
    else if x.stage.next >= |x.plan| then With(s, w, x.(stage := Reading(0, false)))
    else
      var k := x.plan[x.stage.next];
      if k in x.subs || (k in s.watches && s.watches[k] !in s.info) then s
      else
        var (watches, info, mine) := Subscribed(s.watches, s.info, k, id);
        var y := x.(subs := x.subs[k := mine], stage := Subscribing(x.stage.next + 1));
        s.(watches := watches, info := info, waiters := s.waiters[w := y])
  }

  function ReadNext(s: State, w: WaiterId): State
    requires w in s.waiters
  {
    var x := s.waiters[w];
    if !x.stage.Reading? then s
    else if x.stage.next >= |x.plan| then
      With(s, w, if x.stage.found then x.(stage := Releasing(false), seen := {}) else x.(stage := Blocked))
    else
      var k := x.plan[x.stage.next];
      if Count(s.stored, k) > Count(x.cursor, k) then With(s, w, x.(stage := Reading(x.stage.next + 1, true)))
      else With(s, w, x.(stage := Reading(x.stage.next + 1, x.stage.found), seen := x.seen + {k}))
  }

  function ReleaseNext(s: State, w: WaiterId, k: Key): State
    requires w in s.waiters
  {
    var x := s.waiters[w];
    if !x.stage.Releasing? || k !in x.subs then s
    else if k in s.watches && s.watches[k] == x.subs[k] && (x.subs[k] !in s.info || s.info[x.subs[k]].waiters == 0) then
      s
    else
      var (watches, info) := Released(s.watches, s.info, k, x.subs[k]);
      s.(watches := watches, info := info, waiters := s.waiters[w := x.(subs := x.subs - {k})])
  }

  function Next(s: State, step: Step): State {
    match step
    case Producer(x) => ProducerNext(s, x)
    case Wait(w, x) => WaiterNext(s, w, x)
  }

  function Exec(s: State, steps: seq<Step>): State {
    if steps == [] then s else Next(Exec(s, steps[..|steps| - 1]), steps[|steps| - 1])
  }

  // The invariant

  /** The waiters with an unreleased subscription to a watch. */
  ghost function Users(s: State, id: WatchId, k: Key): set<WaiterId> {
    set w | w in s.waiters && k in s.waiters[w].subs && s.waiters[w].subs[k] == id
  }

  ghost predicate WatchInv(s: State, k: Key) {
    k in s.watches ==>
      var id := s.watches[k];
      && id in s.info && s.info[id].key == k && !s.info[id].closed && id !in s.closing
      && s.info[id].waiters == |Users(s, id, k)| > 0
  }

  /** A subscription's watch is on the map, or detached and closed or about to be. */
  ghost predicate SubInv(s: State, w: WaiterId, k: Key) {
    w in s.waiters && k in s.waiters[w].subs ==>
      var id := s.waiters[w].subs[k];
      && id in s.info && s.info[id].key == k
      && (s.info[id].closed || id in s.closing || (k in s.watches && s.watches[k] == id))
  }

  /** Nothing stored since the read has gone unannounced. */
  ghost predicate SeenInv(s: State, w: WaiterId, k: Key) {
    w in s.waiters && k in s.waiters[w].seen ==>
      && k in s.waiters[w].subs && !s.waiters[w].stage.Releasing? && !s.waiters[w].stage.Subscribing?
      && (Count(s.stored, k) > Count(s.waiters[w].cursor, k) ==>
            || s.waiters[w].subs[k] in s.closing
            || (s.waiters[w].subs[k] in s.info && s.info[s.waiters[w].subs[k]].closed)
            || Count(s.due, k) > 0)
  }

  ghost predicate StageInv(s: State, w: WaiterId) {
    w in s.waiters ==>
      var x := s.waiters[w];
      && Distinct(x.plan)
      && match x.stage {
           case Subscribing(n) => n <= |x.plan| && forall j :: 0 <= j < n ==> x.plan[j] in x.subs
           case Reading(n, found) =>
             && n <= |x.plan| && (forall j :: 0 <= j < |x.plan| ==> x.plan[j] in x.subs)
             && (!found ==> forall j :: 0 <= j < n ==> x.plan[j] in x.seen)
           case Blocked => forall j :: 0 <= j < |x.plan| ==> x.plan[j] in x.seen
           case Releasing(_) => true
         }
  }

  ghost predicate Inv(s: State) {
    && (forall id :: id in s.closing ==> id in s.info)
    && (forall k :: WatchInv(s, k))
    && (forall w, k :: SubInv(s, w, k))
    && (forall w, k :: SeenInv(s, w, k))
    && (forall w :: StageInv(s, w))
  }

  lemma DetachKeeps(s: State, key: Key)
    requires Inv(s)
    ensures Inv(ProducerNext(s, Detach(key)))
  {
    var n := ProducerNext(s, Detach(key));
    assert WatchInv(s, key);
    forall k ensures WatchInv(n, k) {
      assert WatchInv(s, k);
      if k in n.watches { assert Users(n, n.watches[k], k) == Users(s, n.watches[k], k); }
    }
    forall w, k ensures SubInv(n, w, k) { assert SubInv(s, w, k); }
    forall w, k ensures SeenInv(n, w, k) { assert SeenInv(s, w, k) && SubInv(s, w, k); }
    forall w ensures StageInv(n, w) { assert StageInv(s, w); }
  }

  lemma CloseKeeps(s: State, id: WatchId)
    requires Inv(s)
    ensures Inv(ProducerNext(s, Close(id)))
  {
    var n := ProducerNext(s, Close(id));
    forall k ensures WatchInv(n, k) {
      assert WatchInv(s, k);
      if k in n.watches { assert Users(n, n.watches[k], k) == Users(s, n.watches[k], k); }
    }
    forall w, k ensures SubInv(n, w, k) { assert SubInv(s, w, k); }
    forall w, k ensures SeenInv(n, w, k) { assert SeenInv(s, w, k) && SubInv(s, w, k); }
    forall w ensures StageInv(n, w) { assert StageInv(s, w); }
  }

  lemma ProducerKeeps(s: State, step: ProducerStep)
    requires Inv(s)
    ensures Inv(ProducerNext(s, step))
  {
    match step
    case Detach(key) => DetachKeeps(s, key);
    case Close(id) => CloseKeeps(s, id);
    case Store(_) =>
      var n := ProducerNext(s, step);
      forall k ensures WatchInv(n, k) {
        assert WatchInv(s, k);
        if k in n.watches { assert Users(n, n.watches[k], k) == Users(s, n.watches[k], k); }
      }
      forall w, k ensures SubInv(n, w, k) { assert SubInv(s, w, k); }
      forall w, k ensures SeenInv(n, w, k) { assert SeenInv(s, w, k) && SubInv(s, w, k); }
      forall w ensures StageInv(n, w) { assert StageInv(s, w); }
  }

  /** A waiter that moves on without touching its subscriptions. */
  lemma WithKeeps(s: State, w: WaiterId, x: Waiter)
    requires Inv(s) && StageInv(With(s, w, x), w) && forall k :: SeenInv(With(s, w, x), w, k)
    requires if w in s.waiters then x.subs == s.waiters[w].subs else x.subs == map[]
    ensures Inv(With(s, w, x))
  {
    var n := With(s, w, x);
    forall k ensures WatchInv(n, k) {
      assert WatchInv(s, k);
      if k in n.watches { assert Users(n, n.watches[k], k) == Users(s, n.watches[k], k); }
    }
    forall v, k ensures SubInv(n, v, k) { assert SubInv(s, v, k); }
    forall v, k ensures SeenInv(n, v, k) { assert SeenInv(s, v, k); }
    forall v ensures StageInv(n, v) { assert StageInv(s, v); }
  }

  lemma ReadOneKeepsStage(s: State, w: WaiterId)
    requires Inv(s) && w in s.waiters && s.waiters[w].stage.Reading? && s.waiters[w].stage.next < |s.waiters[w].plan|
    ensures StageInv(ReadNext(s, w), w)
  {
    var n, x := ReadNext(s, w), s.waiters[w];
    assert StageInv(s, w);
    forall j | 0 <= j < x.stage.next + 1 && !n.waiters[w].stage.found ensures x.plan[j] in n.waiters[w].seen {
      if j < x.stage.next { assert x.plan[j] in x.seen; }
    }
  }

  lemma ReadOneKeepsSeen(s: State, w: WaiterId, k: Key)
    requires Inv(s) && w in s.waiters && s.waiters[w].stage.Reading? && s.waiters[w].stage.next < |s.waiters[w].plan|
    ensures SeenInv(ReadNext(s, w), w, k)
  {
    assert StageInv(s, w) && s.waiters[w].plan[s.waiters[w].stage.next] in s.waiters[w].subs;
    assert SeenInv(s, w, k);
  }

  lemma ReadOneKeeps(s: State, w: WaiterId)
    requires Inv(s) && w in s.waiters && s.waiters[w].stage.Reading? && s.waiters[w].stage.next < |s.waiters[w].plan|
    ensures Inv(ReadNext(s, w))
  {
    var n := ReadNext(s, w);
    forall k ensures SeenInv(n, w, k) { ReadOneKeepsSeen(s, w, k); }
    ReadOneKeepsStage(s, w);
    WithKeeps(s, w, n.waiters[w]);
  }

  lemma ReadKeeps(s: State, w: WaiterId)
    requires Inv(s) && w in s.waiters && ReadNext(s, w) != s
    ensures Inv(ReadNext(s, w))
  {
    var n, x := ReadNext(s, w), s.waiters[w];
    assert StageInv(s, w);
    if x.stage.next < |x.plan| {
      ReadOneKeeps(s, w);
    } else {
      forall k ensures SeenInv(n, w, k) { assert SeenInv(s, w, k); }
      WithKeeps(s, w, n.waiters[w]);
    }
  }

  /** A watch made for a subscription is used by nobody else yet. */
  lemma SubscribeFirst(s: State, w: WaiterId, id: WatchId)
    requires Inv(s) && w in s.waiters && s.waiters[w].stage.Subscribing? &&
               s.waiters[w].stage.next < |s.waiters[w].plan|
    requires id !in s.info && SubscribeNext(s, w, id) != s
    requires s.waiters[w].plan[s.waiters[w].stage.next] !in s.watches
    ensures WatchInv(SubscribeNext(s, w, id), s.waiters[w].plan[s.waiters[w].stage.next])
  {
    var n, mine := SubscribeNext(s, w, id), s.waiters[w].plan[s.waiters[w].stage.next];
    forall v ensures v in Users(n, id, mine) <==> v == w { assert SubInv(s, v, mine); }
    assert Users(n, id, mine) == {w};
  }

  lemma SubscribeAgain(s: State, w: WaiterId, id: WatchId)
    requires Inv(s) && w in s.waiters && s.waiters[w].stage.Subscribing? &&
               s.waiters[w].stage.next < |s.waiters[w].plan|
    requires id !in s.info && SubscribeNext(s, w, id) != s
    requires s.waiters[w].plan[s.waiters[w].stage.next] in s.watches
    ensures WatchInv(SubscribeNext(s, w, id), s.waiters[w].plan[s.waiters[w].stage.next])
  {
    var n, mine := SubscribeNext(s, w, id), s.waiters[w].plan[s.waiters[w].stage.next];
    assert WatchInv(s, mine);
    assert Users(n, n.watches[mine], mine) == Users(s, n.watches[mine], mine) + {w};
  }

  lemma SubscribeCounts(s: State, w: WaiterId, id: WatchId, k: Key)
    requires Inv(s) && w in s.waiters && s.waiters[w].stage.Subscribing? &&
               s.waiters[w].stage.next < |s.waiters[w].plan|
    requires id !in s.info && SubscribeNext(s, w, id) != s
    ensures WatchInv(SubscribeNext(s, w, id), k)
  {
    var n, mine := SubscribeNext(s, w, id), s.waiters[w].plan[s.waiters[w].stage.next];
    assert WatchInv(s, k) && WatchInv(s, mine);
    if k == mine {
      if k in s.watches { SubscribeAgain(s, w, id); } else { SubscribeFirst(s, w, id); }
    } else if k in n.watches {
      assert Users(n, n.watches[k], k) == Users(s, n.watches[k], k);
    }
  }

  lemma SubscribeKeepsSub(s: State, w: WaiterId, id: WatchId, v: WaiterId, k: Key)
    requires Inv(s) && w in s.waiters && s.waiters[w].stage.Subscribing? &&
               s.waiters[w].stage.next < |s.waiters[w].plan|
    requires id !in s.info && SubscribeNext(s, w, id) != s
    ensures SubInv(SubscribeNext(s, w, id), v, k) && SeenInv(SubscribeNext(s, w, id), v, k)
  {
    assert SubInv(s, v, k) && SeenInv(s, v, k) && WatchInv(s, s.waiters[w].plan[s.waiters[w].stage.next]);
  }

  lemma SubscribeKeeps(s: State, w: WaiterId, id: WatchId)
    requires Inv(s) && w in s.waiters && SubscribeNext(s, w, id) != s
    ensures Inv(SubscribeNext(s, w, id))
  {
    var n, x := SubscribeNext(s, w, id), s.waiters[w];
    assert StageInv(s, w);
    if x.stage.next >= |x.plan| {
      forall k ensures SeenInv(n, w, k) { assert SeenInv(s, w, k); }
      WithKeeps(s, w, n.waiters[w]);
    } else {
      var mine := x.plan[x.stage.next];
      assert WatchInv(s, mine);
      forall k ensures WatchInv(n, k) { SubscribeCounts(s, w, id, k); }
      forall v, k ensures SubInv(n, v, k) && SeenInv(n, v, k) { SubscribeKeepsSub(s, w, id, v, k); }
      forall v ensures StageInv(n, v) { assert StageInv(s, v); }
    }
  }

  lemma UsersElsewhere(s: State, n: State, w: WaiterId, key: Key, id: WatchId, k: Key)
    requires w in s.waiters && w in n.waiters && n.waiters.Keys == s.waiters.Keys
    requires forall v :: v in s.waiters && v != w ==> n.waiters[v] == s.waiters[v]
    requires n.waiters[w].subs == s.waiters[w].subs - {key}
    ensures k != key ==> Users(n, id, k) == Users(s, id, k)
    ensures Users(n, id, key) == Users(s, id, key) - {w}
  {
  }

  /** The watch a release finds on the map is its own, and leaves with its last subscriber. */
  lemma ReleaseCounts(s: State, w: WaiterId, key: Key, k: Key)
    requires Inv(s) && w in s.waiters && ReleaseNext(s, w, key) != s
    ensures WatchInv(ReleaseNext(s, w, key), k)
  {
    var n, mine := ReleaseNext(s, w, key), s.waiters[w].subs[key];
    assert WatchInv(s, k) && WatchInv(s, key);
    if k in n.watches {
      var id := n.watches[k];
      UsersElsewhere(s, n, w, key, id, k);
      if k == key && id != mine {
        assert w !in Users(s, id, key);
        assert Users(s, id, key) - {w} == Users(s, id, key);
      } else if k == key {
        assert w in Users(s, id, key);
      }
    }
  }

  lemma ReleaseKeepsSub(s: State, w: WaiterId, key: Key, v: WaiterId, k: Key)
    requires Inv(s) && w in s.waiters && ReleaseNext(s, w, key) != s
    ensures SubInv(ReleaseNext(s, w, key), v, k)
  {
    var mine := s.waiters[w].subs[key];
    assert SubInv(s, v, k) && WatchInv(s, key);
    if v != w && v in s.waiters && k == key && k in s.waiters[v].subs && s.waiters[v].subs[k] == mine &&
         key in s.watches && s.watches[key] == mine {
      assert {v, w} <= Users(s, mine, key);
      assert |{v, w}| == 2 && |Users(s, mine, key) - {v, w}| + 2 == |Users(s, mine, key)|;
    }
  }

  lemma ReleaseKeeps(s: State, w: WaiterId, key: Key)
    requires Inv(s) && w in s.waiters && ReleaseNext(s, w, key) != s
    ensures Inv(ReleaseNext(s, w, key))
  {
    var n := ReleaseNext(s, w, key);
    assert StageInv(s, w);
    forall k ensures WatchInv(n, k) { ReleaseCounts(s, w, key, k); }
    forall v, k ensures SubInv(n, v, k) { ReleaseKeepsSub(s, w, key, v, k); }
    forall v, k ensures SeenInv(n, v, k) { assert SeenInv(s, v, k) && SubInv(s, v, k); }
    forall v ensures StageInv(n, v) { assert StageInv(s, v); }
  }

  lemma LeaveKeeps(s: State, w: WaiterId)
    requires Inv(s) && w in s.waiters && s.waiters[w].subs == map[]
    ensures Inv(s.(waiters := s.waiters - {w}))
  {
    var n := s.(waiters := s.waiters - {w});
    forall k ensures WatchInv(n, k) {
      assert WatchInv(s, k);
      if k in n.watches { assert Users(n, n.watches[k], k) == Users(s, n.watches[k], k); }
    }
    forall v, k ensures SubInv(n, v, k) { assert SubInv(s, v, k); }
    forall v, k ensures SeenInv(n, v, k) { assert SeenInv(s, v, k); }
    forall v ensures StageInv(n, v) { assert StageInv(s, v); }
  }

  lemma WaiterKeeps(s: State, w: WaiterId, step: WaiterStep)
    requires Inv(s)
    ensures Inv(WaiterNext(s, w, step))
  {
    var n := WaiterNext(s, w, step);
    if n != s {
      assert StageInv(s, w);
      match step
      case Begin(_, _) => WithKeeps(s, w, n.waiters[w]);
      case Subscribe(id) => SubscribeKeeps(s, w, id);
      case Read => ReadKeeps(s, w);
      case Wake(_) => WithKeeps(s, w, n.waiters[w]);
      case Stop => WithKeeps(s, w, n.waiters[w]);
      case Release(k) => ReleaseKeeps(s, w, k);
      case Leave =>
        if s.waiters[w].stage.again {
          forall k ensures SeenInv(n, w, k) { assert SeenInv(s, w, k); }
          WithKeeps(s, w, n.waiters[w]);
        } else {
          LeaveKeeps(s, w);
        }
    }
  }

  lemma {:induction false} RunKeeps(steps: seq<Step>)
    ensures Inv(Exec(QUIET, steps))
  {
    if steps != [] {
      var before := Exec(QUIET, steps[..|steps| - 1]);
      RunKeeps(steps[..|steps| - 1]);
      match steps[|steps| - 1]
      case Producer(x) => ProducerKeeps(before, x);
      case Wait(w, x) => WaiterKeeps(before, w, x);
    }
  }

  // What holds in every reachable state

  ghost predicate Reachable(s: State) {
    exists steps :: s == Exec(QUIET, steps)
  }

  lemma ReachableInv(s: State)
    requires Reachable(s)
    ensures Inv(s)
  {
    var steps :| s == Exec(QUIET, steps);
    RunKeeps(steps);
  }

  ghost predicate Closed(s: State, w: WaiterId, k: Key)
    requires w in s.waiters && k in s.waiters[w].subs
  {
    s.waiters[w].subs[k] in s.info && s.info[s.waiters[w].subs[k]].closed
  }

  /**
   A waiter blocked although one of its streams has an item past its cursor is about to be woken: its
   watch is closed, or detached and about to be, or a producer of that stream has yet to announce.
   */
  lemma NoLostWakeup(s: State, w: WaiterId, i: nat)
    requires Reachable(s)
    ensures w in s.waiters && s.waiters[w].stage.Blocked? && i < |s.waiters[w].plan| ==>
              var k := s.waiters[w].plan[i];
              && k in s.waiters[w].subs
              && (Count(s.stored, k) > Count(s.waiters[w].cursor, k) ==>
                    Closed(s, w, k) || s.waiters[w].subs[k] in s.closing || Count(s.due, k) > 0)
  {
    ReachableInv(s);
    assert StageInv(s, w);
    if w in s.waiters && s.waiters[w].stage.Blocked? && i < |s.waiters[w].plan| {
      assert SeenInv(s, w, s.waiters[w].plan[i]);
    }
  }

  /** And it is woken: the announcement and the closing that are due, in that order, close its watch. */
  lemma WokenByWhatIsDue(s: State, w: WaiterId, k: Key)
    requires Inv(s) && w in s.waiters && s.waiters[w].stage.Blocked? && k in s.waiters[w].plan
    requires Count(s.stored, k) > Count(s.waiters[w].cursor, k)
    ensures k in s.waiters[w].subs
    ensures var t := ProducerNext(ProducerNext(s, Detach(k)), Close(s.waiters[w].subs[k]));
            Closed(t, w, k) && WaiterNext(t, w, Wake(k)).waiters[w].stage == Releasing(true)
  {
    assert StageInv(s, w) && SeenInv(s, w, k) && SubInv(s, w, k) && WatchInv(s, k);
  }

  /**
   A mapped watch counts its unreleased subscriptions, and no release takes a watch from somebody
   still subscribed to it.
   */
  lemma WatchesExact(s: State, w: WaiterId, k: Key)
    requires Reachable(s)
    ensures k in s.watches ==> s.watches[k] in s.info && s.info[s.watches[k]].waiters == |Users(s, s.watches[k], k)| > 0
    ensures w in s.waiters && k in s.waiters[w].subs ==>
              || Closed(s, w, k) || s.waiters[w].subs[k] in s.closing
              || (k in s.watches && s.watches[k] == s.waiters[w].subs[k])
  {
    ReachableInv(s);
    assert WatchInv(s, k) && SubInv(s, w, k);
  }

  // What each step brings about

  /** An item stored is one more, and is to be announced. */
  lemma StoreTakes(s: State, k: Key, j: Key)
    ensures var n := Next(s, Producer(Store(k)));
            && Count(n.stored, k) == Count(s.stored, k) + 1 && Count(n.due, k) == Count(s.due, k) + 1
            && (j != k ==> Count(n.stored, j) == Count(s.stored, j) && Count(n.due, j) == Count(s.due, j))
    ensures Count(s.due, k) > 0 ==> Count(Next(s, Producer(Detach(k))).due, k) == Count(s.due, k) - 1
    ensures forall id :: id in s.closing && id in s.info ==>
              id !in Next(s, Producer(Close(id))).closing && Next(s, Producer(Close(id))).info[id].closed
  {
  }

  /** A wait that times out or is cancelled lets go. */
  lemma StopTakes(s: State, w: WaiterId)
    requires w in s.waiters
    ensures !s.waiters[w].stage.Releasing? ==> Next(s, Wait(w, Stop)).waiters[w].stage == Releasing(false)
    ensures s.waiters[w].stage.Releasing? ==> Next(s, Wait(w, Stop)) == s
  {
  }

  // One wait, undisturbed

  method Take(ghost first: State, s: State, ghost trace: seq<Step>, w: WaiterId, step: WaiterStep)
    returns (t: State, ghost longer: seq<Step>)
    requires Inv(s) && s == Exec(first, trace)
    ensures Inv(t) && t == WaiterNext(s, w, step) == Exec(first, longer)
  {
    WaiterKeeps(s, w, step);
    t, longer := WaiterNext(s, w, step), trace + [Wait(w, step)];
    assert longer[..|trace|] == trace;
  }

  /** No watch from `spare` on exists yet. */
  ghost predicate Unused(s: State, spare: WatchId) {
    forall id :: id in s.info ==> id < spare
  }

  /** Some stream has an item past the cursor. */
  predicate HasNews(stored: map<Key, nat>, plan: seq<Key>, cursor: map<Key, nat>, n: nat)
    requires n <= |plan|
  {
    exists i :: 0 <= i < n && Count(stored, plan[i]) > Count(cursor, plan[i])
  }

  /** One subscription, to the next stream of the plan or, after the last, to none. */
  method SubscribeOne(ghost first: State, s0: State, ghost trace0: seq<Step>, w: WaiterId, spare: WatchId)
    returns (s: State, ghost trace: seq<Step>)
    requires Inv(s0) && s0 == Exec(first, trace0) && w in s0.waiters && s0.waiters[w].stage.Subscribing?
    requires Unused(s0, spare)
    requires var x := s0.waiters[w]; x.stage.next < |x.plan| ==> x.plan[x.stage.next] !in x.subs
    ensures Inv(s) && s == Exec(first, trace) && s.stored == s0.stored && w in s.waiters
    ensures Unused(s, spare + 1)
    ensures var x, y := s0.waiters[w], s.waiters[w];
            && y.plan == x.plan && y.cursor == x.cursor
            && (x.stage.next >= |x.plan| ==> y.stage == Reading(0, false) && y.subs == x.subs)
            && (x.stage.next < |x.plan| ==>
                 y.stage == Subscribing(x.stage.next + 1) && y.subs.Keys == x.subs.Keys + {x.plan[x.stage.next]})
  {
    if s0.waiters[w].stage.next < |s0.waiters[w].plan| {
      assert WatchInv(s0, s0.waiters[w].plan[s0.waiters[w].stage.next]);
    }
    s, trace := Take(first, s0, trace0, w, Subscribe(spare));
  }

  /** Subscribe to the streams of the plan one after the other; `spare` and up are watches that do not exist yet. */
  method SubscribeStreams(ghost first: State, s0: State, ghost trace0: seq<Step>, w: WaiterId, spare: WatchId)
    returns (s: State, ghost trace: seq<Step>)
    requires Inv(s0) && s0 == Exec(first, trace0) && w in s0.waiters && s0.waiters[w].stage == Subscribing(0)
    requires s0.waiters[w].subs == map[] && Unused(s0, spare)
    ensures Inv(s) && s == Exec(first, trace) && s.stored == s0.stored
    ensures Partway(s, w, s0.waiters[w].plan, s0.waiters[w].cursor, |s0.waiters[w].plan|)
    ensures Unused(s, spare + |s0.waiters[w].plan|)
  {
    s, trace := s0, trace0;
    var plan, cursor := s0.waiters[w].plan, s0.waiters[w].cursor;
    PlanDistinct(s0, w);
    for i := 0 to |plan|
      invariant Inv(s) && s == Exec(first, trace) && s.stored == s0.stored
      invariant Partway(s, w, plan, cursor, i) && Unused(s, spare + i)
    {
      NextStream(plan, i);
      s, trace := SubscribeOne(first, s, trace, w, spare + i);
    }
  }

  /** Subscribe to every stream of the plan and go on to read. */
  method SubscribeAll(ghost first: State, s0: State, ghost trace0: seq<Step>, w: WaiterId, spare: WatchId)
    returns (s: State, ghost trace: seq<Step>)
    requires Inv(s0) && s0 == Exec(first, trace0) && w in s0.waiters && s0.waiters[w].stage == Subscribing(0)
    requires s0.waiters[w].subs == map[] && Unused(s0, spare)
    ensures Inv(s) && s == Exec(first, trace) && s.stored == s0.stored && w in s.waiters
    ensures var x, y := s0.waiters[w], s.waiters[w];
            y.plan == x.plan && y.cursor == x.cursor && y.stage == Reading(0, false) && y.subs.Keys == Streams(x.plan)
  {
    s, trace := SubscribeStreams(first, s0, trace0, w, spare);
    assert s0.waiters[w].plan[..|s0.waiters[w].plan|] == s0.waiters[w].plan;
    s, trace := SubscribeOne(first, s, trace, w, spare + |s0.waiters[w].plan|);
  }

  /** Subscribed to the first `i` streams of the plan. */
  ghost predicate Partway(s: State, w: WaiterId, plan: seq<Key>, cursor: map<Key, nat>, i: nat)
    requires i <= |plan|
  {
    && w in s.waiters && s.waiters[w].plan == plan && s.waiters[w].cursor == cursor
    && s.waiters[w].stage == Subscribing(i) && s.waiters[w].subs.Keys == Streams(plan[..i])
  }

  lemma PlanDistinct(s: State, w: WaiterId)
    requires Inv(s) && w in s.waiters
    ensures Distinct(s.waiters[w].plan)
  {
    assert StageInv(s, w);
  }

  ghost function Streams(plan: seq<Key>): set<Key> {
    set k | k in plan
  }

  lemma NextStream(plan: seq<Key>, i: nat)
    requires Distinct(plan) && i < |plan|
    ensures plan[i] !in Streams(plan[..i]) && Streams(plan[..i + 1]) == Streams(plan[..i]) + {plan[i]}
  {
    assert plan[..i + 1] == plan[..i] + [plan[i]];
  }

  lemma NewsNext(stored: map<Key, nat>, plan: seq<Key>, cursor: map<Key, nat>, n: nat)
    requires n < |plan|
    ensures HasNews(stored, plan, cursor, n + 1) <==>
              HasNews(stored, plan, cursor, n) || Count(stored, plan[n]) > Count(cursor, plan[n])
  {
  }

  /** One read, of the next stream of the plan or, after the last, of none. */
  method ReadOne(ghost first: State, s0: State, ghost trace0: seq<Step>, w: WaiterId)
    returns (s: State, ghost trace: seq<Step>)
    requires Inv(s0) && s0 == Exec(first, trace0) && w in s0.waiters && s0.waiters[w].stage.Reading?
    ensures Inv(s) && s == Exec(first, trace) && s.stored == s0.stored && s.info == s0.info && w in s.waiters
    ensures var x, y := s0.waiters[w], s.waiters[w];
            && y.plan == x.plan && y.cursor == x.cursor && y.subs == x.subs
            && y.stage == if x.stage.next < |x.plan|
                          then Reading(x.stage.next + 1, x.stage.found ||
                                         Count(s0.stored, x.plan[x.stage.next]) > Count(x.cursor, x.plan[x.stage.next]))
                          else if x.stage.found then Releasing(false) else Blocked
  {
    s, trace := Take(first, s0, trace0, w, Read);
  }

  /** Read every stream of the plan; block if there is nothing, else let go. */
  method ReadAll(ghost first: State, s0: State, ghost trace0: seq<Step>, w: WaiterId)
    returns (found: bool, s: State, ghost trace: seq<Step>)
    requires Inv(s0) && s0 == Exec(first, trace0) && w in s0.waiters && s0.waiters[w].stage == Reading(0, false)
    ensures Inv(s) && s == Exec(first, trace) && s.stored == s0.stored && s.info == s0.info && w in s.waiters
    ensures found <==> HasNews(s0.stored, s0.waiters[w].plan, s0.waiters[w].cursor, |s0.waiters[w].plan|)
    ensures s.waiters[w].stage == if found then Releasing(false) else Blocked
    ensures var x, y := s0.waiters[w], s.waiters[w]; y.plan == x.plan && y.cursor == x.cursor && y.subs == x.subs
  {
    s, trace, found := s0, trace0, false;
    var plan, cursor, subs := s0.waiters[w].plan, s0.waiters[w].cursor, s0.waiters[w].subs;
    for i := 0 to |plan|
      invariant Inv(s) && s == Exec(first, trace) && s.stored == s0.stored && s.info == s0.info && w in s.waiters
      invariant var y := s.waiters[w];
                y.plan == plan && y.cursor == cursor && y.subs == subs && y.stage == Reading(i, found)
      invariant found <==> HasNews(s0.stored, plan, cursor, i)
    {
      s, trace := ReadOne(first, s, trace, w);
      NewsNext(s0.stored, plan, cursor, i);
      found := found || Count(s0.stored, plan[i]) > Count(cursor, plan[i]);
    }
    s, trace := ReadOne(first, s, trace, w);
  }

  /** Release every subscription. */
  method ReleaseAll(ghost first: State, s0: State, ghost trace0: seq<Step>, w: WaiterId)
    returns (s: State, ghost trace: seq<Step>)
    requires Inv(s0) && s0 == Exec(first, trace0) && w in s0.waiters && s0.waiters[w].stage.Releasing?
    ensures Inv(s) && s == Exec(first, trace) && s.stored == s0.stored && s.info.Keys == s0.info.Keys && w in s.waiters
    ensures s.waiters[w] == s0.waiters[w].(subs := map[])
  {
    s, trace := s0, trace0;
    while s.waiters[w].subs != map[]
      invariant Inv(s) && s == Exec(first, trace) && s.stored == s0.stored && s.info.Keys == s0.info.Keys
      invariant w in s.waiters && s.waiters[w] == s0.waiters[w].(subs := s.waiters[w].subs)
      decreases s.waiters[w].subs.Keys
    {
      var k :| k in s.waiters[w].subs;
      assert SubInv(s, w, k) && WatchInv(s, k);
      s, trace := Take(first, s, trace, w, Release(k));
    }
  }

  method Depart(ghost first: State, s0: State, ghost trace0: seq<Step>, w: WaiterId)
    returns (s: State, ghost trace: seq<Step>)
    requires Inv(s0) && s0 == Exec(first, trace0) && w in s0.waiters && s0.waiters[w].stage == Releasing(false)
    ensures Inv(s) && s == Exec(first, trace) && w !in s.waiters
  {
    s, trace := ReleaseAll(first, s0, trace0, w);
    s, trace := Take(first, s, trace, w, Leave);
  }

  /** Where a wait stands once it has looked: over, or blocked with a subscription to each of its streams. */
  ghost predicate Looked(s: State, w: WaiterId, found: bool, plan: seq<Key>, cursor: map<Key, nat>) {
    if found then w !in s.waiters
    else w in s.waiters && s.waiters[w].stage.Blocked? && s.waiters[w].plan == plan &&
         s.waiters[w].cursor == cursor && s.waiters[w].subs.Keys == Streams(plan)
  }

  /** Subscribe, read, and return with everything let go if there is something. */
  method Look(ghost first: State, s0: State, ghost trace0: seq<Step>, w: WaiterId, spare: WatchId)
    returns (found: bool, s: State, ghost trace: seq<Step>)
    requires Inv(s0) && s0 == Exec(first, trace0) && w in s0.waiters && s0.waiters[w].stage == Subscribing(0)
    requires s0.waiters[w].subs == map[] && Unused(s0, spare)
    ensures Inv(s) && s == Exec(first, trace)
    ensures found <==> HasNews(s0.stored, s0.waiters[w].plan, s0.waiters[w].cursor, |s0.waiters[w].plan|)
    ensures Looked(s, w, found, s0.waiters[w].plan, s0.waiters[w].cursor)
  {
    s, trace := SubscribeAll(first, s0, trace0, w, spare);
    found, s, trace := ReadAll(first, s, trace, w);
    if found { s, trace := Depart(first, s, trace, w); }
  }

  /**
   One wait to its end, or to where it blocks: it returns, with everything it had subscribed to let go,
   exactly if some stream has an item past the cursor.
   */
  method WaitOnce(s0: State, w: WaiterId, plan: seq<Key>, cursor: map<Key, nat>, spare: WatchId)
    returns (found: bool, s: State, ghost trace: seq<Step>)
    requires Inv(s0) && w !in s0.waiters && Distinct(plan) && Unused(s0, spare)
    ensures Inv(s) && s == Exec(s0, trace)
    ensures found <==> HasNews(s0.stored, plan, cursor, |plan|)
    ensures Looked(s, w, found, plan, cursor)
  {
    s, trace := Take(s0, s0, [], w, Begin(plan, cursor));
    found, s, trace := Look(s0, s, trace, w, spare);
  }

  /** A blocked wait whose watch is closed lets everything go and looks again. */
  method WakeUp(s0: State, w: WaiterId, k: Key, spare: WatchId)
    returns (found: bool, s: State, ghost trace: seq<Step>)
    requires Inv(s0) && w in s0.waiters && s0.waiters[w].stage.Blocked?
    requires k in s0.waiters[w].subs && Closed(s0, w, k) && Unused(s0, spare)
    ensures Inv(s) && s == Exec(s0, trace)
    ensures found <==> HasNews(s0.stored, s0.waiters[w].plan, s0.waiters[w].cursor, |s0.waiters[w].plan|)
    ensures Looked(s, w, found, s0.waiters[w].plan, s0.waiters[w].cursor)
  {
    s, trace := Take(s0, s0, [], w, Wake(k));
    s, trace := ReleaseAll(s0, s, trace, w);
    s, trace := Take(s0, s, trace, w, Leave);
    found, s, trace := Look(s0, s, trace, w, spare);
  }
}
