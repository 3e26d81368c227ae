/**
 The coordinator that starts result-package relays. A flight is one package's relay and its retries;
 a scan walks the pending packages of one peer page by page and waits for the flights it starts. A
 request for a scan that is already under way only sets a flag; a scan that finds no room waits for
 a flight to end.
 */
module RelayCoordinator {
  type Package = nat
  type Device = nat
  type FlightId = nat
  type ScanId = nat

  const LIMIT := 128

  datatype Option<T> = None | Some(value: T)

  /**
   What the mutex protects. `channel` numbers the capacity channel; all earlier ones are closed. `woken`
   and `nudged` are the flights and scans whose one-slot wake channels are full.
   */
  datatype Table = Table(
    active: map<Package, FlightId>, scans: map<Device, ScanId>, restart: set<ScanId>, channel: nat, stopped: bool,
    woken: set<FlightId>, nudged: set<ScanId>)

  // The critical sections

  /** A request, with `wake` when the peer has just connected: then everything under way is woken as well. */
  function ScanRequested(t: Table, d: Device, x: ScanId, wake: bool): Table {
    if t.stopped then t
    else
      var u := if wake then t.(woken := t.woken + t.active.Values) else t;
      if d !in t.scans then u.(scans := t.scans[d := x])
      else u.(restart := t.restart + {t.scans[d]}, nudged := if wake then t.nudged + {t.scans[d]} else t.nudged)
  }

  /** The flight that now carries the package, if there is one. */
  function Tried(t: Table, p: Package, f: FlightId): (Table, Option<FlightId>) {
    if t.stopped then (t, None)
    else if p in t.active then (t, Some(t.active[p]))
    else if |t.active| >= LIMIT then (t, None)
    else (t.(active := t.active[p := f]), Some(f))
  }

  function FlightEnded(t: Table, p: Package): Table {
    t.(active := t.active - {p}, channel := t.channel + 1)
  }

  /** After the last page: another pass if one was asked for, else the scan leaves. */
  function PassEnded(t: Table, d: Device, x: ScanId): Table {
    if x in t.restart then t.(restart := t.restart - {x}) else Cleaned(t, d, x)
  }

  function Cleaned(t: Table, d: Device, x: ScanId): Table {
    if d in t.scans && t.scans[d] == x then t.(scans := t.scans - {d}) else t
  }

  function Halted(t: Table): Table {
    t.(stopped := true, channel := t.channel + 1)
  }

  class Coordinator {
    var active: map<Package, FlightId>
    var scans: map<Device, ScanId>
    var restart: set<ScanId>
    var channel: nat
    var stopped: bool
    var woken: set<FlightId>
    var nudged: set<ScanId>

    function Contents(): Table
      reads this
    {
      Table(active, scans, restart, channel, stopped, woken, nudged)
    }

    constructor ()
      ensures Contents() == Table(map[], map[], {}, 0, false, {}, {})
    {
      active, scans, restart, channel, stopped, woken, nudged := map[], map[], {}, 0, false, {}, {};
    }

    method SchedulePeerScan(d: Device, spare: ScanId, wake: bool) returns (started: bool)
      modifies this
      ensures Contents() == ScanRequested(old(Contents()), d, spare, wake)
      ensures started <==> !old(stopped) && d !in old(scans)
      // A reconnection reaches every flight and the scan of its device, or starts one.
      ensures wake && !stopped ==> forall p :: p in active ==> active[p] in woken
      ensures wake && !stopped ==> d in scans && (started || (scans[d] in restart && scans[d] in nudged))
    {
      if stopped { return false; }
      if wake { WakeFlights(); }
      if d in scans {
        restart := restart + {scans[d]};
        if wake { nudged := nudged + {scans[d]}; }
        return false;
      }
      scans := scans[d := spare];
      started := true;
    }

    method WakeFlights()
      modifies this`woken
      ensures woken == old(woken) + active.Values
    {
      var todo := active.Keys;
      while todo != {}
        invariant todo <= active.Keys
        invariant woken == old(woken) + set p | p in active && p !in todo :: active[p]
      {
        var p :| p in todo;
        woken := woken + {active[p]};
        todo := todo - {p};
      }
      assert active.Values == set p | p in active :: active[p];
    }

    method ScheduleFlight(p: Package, spare: FlightId) returns (flight: Option<FlightId>, started: bool)
      modifies this
      ensures (Contents(), flight) == Tried(old(Contents()), p, spare)
      ensures started <==> p !in old(active) && p in active
    {
      if stopped { return None, false; }
      if p in active { return Some(active[p]), false; }
      if |active| >= LIMIT { return None, false; }
      active := active[p := spare];
      return Some(spare), true;
    }

    /** The package is taken up at once, or the scan of its source will find it. */
    method Schedule(p: Package, d: Device, spare: FlightId, spareScan: ScanId) returns (started: bool)
      modifies this
      ensures stopped == old(stopped) && (stopped ==> !started && Contents() == old(Contents()))
      ensures started ==> p in active && active[p] == spare && scans == old(scans)
      ensures !stopped ==> p in active || (d in scans && (d !in old(scans) || scans[d] in restart))
      ensures !stopped && p in old(active) ==> !started && active == old(active) && active[p] in woken
      ensures forall q :: q in old(active) ==> q in active && active[q] == old(active)[q]
      ensures nudged == old(nudged) && (p !in old(active) ==> woken == old(woken))
    {
      var flight;
      flight, started := ScheduleFlight(p, spare);
      if flight.None? {
        var _ := SchedulePeerScan(d, spareScan, false);
      } else if !started {
        woken := woken + {flight.value};
      }
    }

    method EndFlight(p: Package)
      modifies this
      ensures Contents() == FlightEnded(old(Contents()), p)
    {
      active, channel := active - {p}, channel + 1;
    }

    method EndPass(d: Device, x: ScanId) returns (again: bool)
      modifies this
      ensures Contents() == PassEnded(old(Contents()), d, x)
      ensures again <==> x in old(restart)
    {
      again := x in restart;
      if again {
        restart := restart - {x};
      } else if d in scans && scans[d] == x {
        scans := scans - {d};
      }
    }

    method CleanUpScan(d: Device, x: ScanId)
      modifies this
      ensures Contents() == Cleaned(old(Contents()), d, x)
    {
      if d in scans && scans[d] == x { scans := scans - {d}; }
    }

    method Stop()
      modifies this
      ensures Contents() == Halted(old(Contents()))
    {
      stopped, channel := true, channel + 1;
    }
  }

  // Whole runs

  datatype Flight = Flight(package: Package, attempted: bool, ended: bool)

  /** `Blocked` has found no room and will look again; `Waiting` waits for its channel to close. */
  datatype Stage = Fetching | Placing | Blocked | Waiting(channel: nat) | Left | Failed

  /**
   `first` says the next page is the first one; `page` is the page at hand, `todo` what is left of it,
   `placed` the flights of the rest, `more` whether it is not the last.
   */
  datatype Scan = Scan(
    device: Device, stage: Stage, first: bool,
    page: seq<Package>, todo: seq<Package>, placed: set<FlightId>, more: bool)

  datatype State = State(table: Table, flights: map<FlightId, Flight>, scans: map<ScanId, Scan>)

  const INITIAL := State(Table(map[], map[], {}, 0, false, {}, {}), map[], map[])

  datatype FlightStep =
    | TryFlight(flight: FlightId, package: Package)
    | FinishAttempt(flight: FlightId)
    | Signal(flight: FlightId)
    | Rouse(flight: FlightId)
    | EndFlight(flight: FlightId)

  /** `Fetch` is one read of a page; without one it failed, for good unless `retry`. */
  datatype ScanStep =
    | Request(device: Device, wake: bool)
    | Fetch(page: Option<seq<Package>>, more: bool, retry: bool)
    | Place(flight: FlightId)
    | Check
    | Wake
    | Forward
    | FinishPage
    | Cancel
    | CleanUp

  datatype Step = Flights(flight: FlightStep) | Scanning(id: ScanId, scan: ScanStep) | Stop

  function FlightNext(s: State, step: FlightStep): State {
    match step
    case TryFlight(f, p) => if f in s.flights then s else Started(s, f, p)
    case FinishAttempt(f) =>
      if f in s.flights && !s.flights[f].ended then
        s.(flights := s.flights[f := s.flights[f].(attempted := true)])
      else s
    case Signal(f) => if f in s.flights then s.(table := s.table.(woken := s.table.woken + {f})) else s
    case Rouse(f) => s.(table := s.table.(woken := s.table.woken - {f}))
    case EndFlight(f) =>
      if f in s.flights && s.flights[f].attempted && !s.flights[f].ended then
        s.(table := FlightEnded(s.table, s.flights[f].package), flights := s.flights[f := s.flights[f].(ended := true)])
      else s
  }

  function Started(s: State, f: FlightId, p: Package): State {
    var (table, flight) := Tried(s.table, p, f);
    if flight == Some(f) && p !in s.table.active then
      s.(table := table, flights := s.flights[f := Flight(p, false, false)])
    else s
  }

  function Moved(s: State, x: ScanId, scan: Scan): State {
    s.(scans := s.scans[x := scan])
  }

  function ScanNext(s: State, x: ScanId, step: ScanStep): State {
    if step.Request? then Requested(s, x, step.device, step.wake)
    else if x !in s.scans then s
    else
      var c := s.scans[x];
      match step
      case Fetch(page, more, retry) =>
        if !c.stage.Fetching? then s
        else if page.Some? then
          Moved(s, x, c.(stage := Placing, page := page.value, todo := page.value, placed := {}, more := more))
        else if retry then s
        else Moved(s, x, c.(stage := Failed))
      case Place(f) => if c.stage.Placing? && c.todo != [] && f !in s.flights then Placed(s, x, f) else s
      case Check =>
        if !c.stage.Blocked? then s
        else if s.table.stopped then Moved(s, x, c.(stage := Failed))
        else if |s.table.active| < LIMIT then Moved(s, x, c.(stage := Placing))
        else Moved(s, x, c.(stage := Waiting(s.table.channel)))
      case Wake =>
        if !c.stage.Waiting? then s
        else if c.stage.channel < s.table.channel then Moved(s, x, c.(stage := Placing))
        else if x in s.table.nudged then
          Moved(s.(table := s.table.(nudged := s.table.nudged - {x})), x, c.(stage := Placing))
        else s
      case Forward =>
        if c.stage.Placing? && c.todo == [] && x in s.table.nudged then
          s.(table := s.table.(nudged := s.table.nudged - {x}, woken := s.table.woken + c.placed))
        else s
      case FinishPage =>
        if c.stage.Placing? && c.todo == [] && (forall f :: f in c.placed ==>
             f in s.flights && s.flights[f].attempted) then
          PageDone(s, x)
        else s
      case Cancel => if c.stage.Left? then s else Moved(s, x, c.(stage := Failed))
      case CleanUp =>
        if c.stage.Left? || c.stage.Failed? then
          s.(table := Cleaned(s.table, c.device, x), scans := s.scans - {x})
        else s
      case Request(_, _) => s
  }

  function Requested(s: State, x: ScanId, d: Device, wake: bool): State {
    if x in s.scans || x in s.table.restart then s
    else
      var table := ScanRequested(s.table, d, x, wake);
      if d !in s.table.scans && d in table.scans then
        State(table, s.flights, s.scans[x := Scan(d, Fetching, true, [], [], {}, false)])
      else s.(table := table)
  }

  function Placed(s: State, x: ScanId, f: FlightId): State
    requires x in s.scans && s.scans[x].todo != [] && f !in s.flights
  {
    var c := s.scans[x];
    var (_, flight) := Tried(s.table, c.todo[0], f);
    if flight.None? then Moved(s, x, c.(stage := Blocked))
    else Moved(Started(s, f, c.todo[0]), x, c.(todo := c.todo[1..], placed := c.placed + {flight.value}))
  }

  /** The page's flights have all made an attempt: the next page, the first one again, or the end. */
  function PageDone(s: State, x: ScanId): State
    requires x in s.scans
  {
    var c := s.scans[x];
    if c.more then Moved(s, x, c.(stage := Fetching, first := false))
    else if x in s.table.restart then
      Moved(s.(table := PassEnded(s.table, c.device, x)), x, c.(stage := Fetching, first := true))
    else Moved(s.(table := PassEnded(s.table, c.device, x)), x, c.(stage := Left))
  }

  function Next(s: State, step: Step): State {
    match step
    case Flights(f) => FlightNext(s, f)
    case Scanning(x, c) => ScanNext(s, x, c)
    case Stop => s.(table := Halted(s.table))
  }

  function Exec(s: State, steps: seq<Step>): State {
    if steps == [] then s else Next(Exec(s, steps[..|steps| - 1]), steps[|steps| - 1])
  }

  // The invariant

  ghost predicate FlightInv(s: State, f: FlightId) {
    f in s.flights ==>
      && (s.flights[f].ended ==> s.flights[f].attempted)
      && (!s.flights[f].ended ==> s.flights[f].package in s.table.active && s.table.active[s.flights[f].package] == f)
  }

  ghost predicate ActiveInv(s: State, p: Package) {
    p in s.table.active ==>
      var f := s.table.active[p];
      f in s.flights && s.flights[f].package == p && !s.flights[f].ended
  }

  ghost predicate ListedInv(s: State, d: Device) {
    d in s.table.scans ==>
      var x := s.table.scans[d];
      x in s.scans && s.scans[x].device == d && !s.scans[x].stage.Left?
  }

  ghost predicate ScanInv(s: State, x: ScanId) {
    x in s.scans ==>
      var c := s.scans[x];
      && (c.stage.Left? ==> x !in s.table.restart)
      && (!c.stage.Left? ==> c.device in s.table.scans && s.table.scans[c.device] == x)
      && (c.stage.Waiting? ==>
           c.stage.channel <= s.table.channel && (c.stage.channel == s.table.channel ==> |s.table.active| >= LIMIT))
      && (forall f :: f in c.placed ==> f in s.flights)
  }

  ghost predicate Inv(s: State) {
    && |s.table.active| <= LIMIT
    && (forall f :: FlightInv(s, f))
    && (forall p :: ActiveInv(s, p))
    && (forall d :: ListedInv(s, d))
    && (forall x :: ScanInv(s, x))
  }

  lemma StartedKeeps(s: State, f: FlightId, p: Package)
    requires Inv(s) && f !in s.flights
    ensures Inv(Started(s, f, p)) && Started(s, f, p).scans == s.scans
    ensures Tried(s.table, p, f).1.Some? ==> Tried(s.table, p, f).1.value in Started(s, f, p).flights
  {
    var n := Started(s, f, p);
    assert ActiveInv(s, p);
    if n != s {
      assert n.table.active.Keys == s.table.active.Keys + {p};
      assert |n.table.active| == |n.table.active.Keys| && |s.table.active| == |s.table.active.Keys|;
      forall g ensures FlightInv(n, g) { assert FlightInv(s, g); }
      forall q ensures ActiveInv(n, q) { assert ActiveInv(s, q); }
      forall d ensures ListedInv(n, d) { assert ListedInv(s, d); }
      forall x ensures ScanInv(n, x) { assert ScanInv(s, x); }
    }
  }

  lemma FlightKeeps(s: State, step: FlightStep)
    requires Inv(s)
    ensures Inv(FlightNext(s, step))
  {
    if step.TryFlight? {
      if step.flight !in s.flights { StartedKeeps(s, step.flight, step.package); }
    } else if step.Signal? || step.Rouse? {
      SignalsAside(s, FlightNext(s, step));
    } else {
      var n, f := FlightNext(s, step), step.flight;
      assert FlightInv(s, f);
      if step.EndFlight? && n != s {
        var p := s.flights[f].package;
        assert n.table.active.Keys == s.table.active.Keys - {p};
        assert |n.table.active| == |n.table.active.Keys| && |s.table.active| == |s.table.active.Keys|;
      }
      forall g ensures FlightInv(n, g) { assert FlightInv(s, g); }
      forall q ensures ActiveInv(n, q) { assert ActiveInv(s, q); }
      forall d ensures ListedInv(n, d) { assert ListedInv(s, d); }
      forall x ensures ScanInv(n, x) { assert ScanInv(s, x); }
    }
  }

  /** Nothing else depends on which wake channels are full. */
  lemma SignalsAside(s: State, n: State)
    requires Inv(s) && n == s.(table := s.table.(woken := n.table.woken, nudged := n.table.nudged))
    ensures Inv(n)
  {
    forall f ensures FlightInv(n, f) { assert FlightInv(s, f); }
    forall q ensures ActiveInv(n, q) { assert ActiveInv(s, q); }
    forall d ensures ListedInv(n, d) { assert ListedInv(s, d); }
    forall y ensures ScanInv(n, y) { assert ScanInv(s, y); }
  }

  /** A scan that stays in the table and only moves along. */
  lemma MovedKeeps(s: State, x: ScanId, c: Scan)
    requires Inv(s) && x in s.scans && !s.scans[x].stage.Left? && c.device == s.scans[x].device && !c.stage.Left?
    requires c.stage.Waiting? ==> c.stage.channel == s.table.channel && |s.table.active| >= LIMIT
    requires forall f :: f in c.placed ==> f in s.flights
    ensures Inv(Moved(s, x, c))
  {
    var n := Moved(s, x, c);
    assert ScanInv(s, x);
    forall f ensures FlightInv(n, f) { assert FlightInv(s, f); }
    forall q ensures ActiveInv(n, q) { assert ActiveInv(s, q); }
    forall d ensures ListedInv(n, d) { assert ListedInv(s, d); }
    forall y ensures ScanInv(n, y) { assert ScanInv(s, y); }
  }

  lemma RequestedKeeps(s: State, x: ScanId, d: Device, wake: bool)
    requires Inv(s)
    ensures Inv(Requested(s, x, d, wake))
  {
    var n := Requested(s, x, d, wake);
    assert ListedInv(s, d);
    forall f ensures FlightInv(n, f) { assert FlightInv(s, f); }
    forall q ensures ActiveInv(n, q) { assert ActiveInv(s, q); }
    forall e ensures ListedInv(n, e) { assert ListedInv(s, e); }
    forall y ensures ScanInv(n, y) { assert ScanInv(s, y); }
  }

  /** The table loses or keeps the scan itself, never another one. */
  lemma PageDoneKeeps(s: State, x: ScanId)
    requires Inv(s) && x in s.scans && s.scans[x].stage.Placing?
    ensures Inv(PageDone(s, x))
  {
    var n, c := PageDone(s, x), s.scans[x];
    assert ScanInv(s, x);
    if c.more {
      MovedKeeps(s, x, c.(stage := Fetching, first := false));
    } else {
      forall f ensures FlightInv(n, f) { assert FlightInv(s, f); }
      forall q ensures ActiveInv(n, q) { assert ActiveInv(s, q); }
      forall d ensures ListedInv(n, d) { assert ListedInv(s, d); }
      forall y ensures ScanInv(n, y) { assert ScanInv(s, y) && ListedInv(s, c.device); }
    }
  }

  lemma CleanUpKeeps(s: State, x: ScanId)
    requires Inv(s) && x in s.scans && (s.scans[x].stage.Left? || s.scans[x].stage.Failed?)
    ensures Inv(ScanNext(s, x, CleanUp))
  {
    var n, c := ScanNext(s, x, CleanUp), s.scans[x];
    assert ScanInv(s, x);
    forall f ensures FlightInv(n, f) { assert FlightInv(s, f); }
    forall q ensures ActiveInv(n, q) { assert ActiveInv(s, q); }
    forall d ensures ListedInv(n, d) { assert ListedInv(s, d); }
    forall y ensures ScanInv(n, y) { assert ScanInv(s, y) && ListedInv(s, c.device); }
  }

  lemma PlacedKeeps(s: State, x: ScanId, f: FlightId)
    requires Inv(s) && x in s.scans && s.scans[x].stage.Placing? && s.scans[x].todo != [] && f !in s.flights
    ensures Inv(Placed(s, x, f))
  {
    var c := s.scans[x];
    var flight := Tried(s.table, c.todo[0], f).1;
    assert ScanInv(s, x);
    if flight.None? {
      MovedKeeps(s, x, c.(stage := Blocked));
    } else {
      StartedKeeps(s, f, c.todo[0]);
      MovedKeeps(Started(s, f, c.todo[0]), x, c.(todo := c.todo[1..], placed := c.placed + {flight.value}));
    }
  }

  lemma ScanKeeps(s: State, x: ScanId, step: ScanStep)
    requires Inv(s)
    ensures Inv(ScanNext(s, x, step))
  {
    if step.Request? {
      RequestedKeeps(s, x, step.device, step.wake);
    } else if ScanNext(s, x, step) != s {
      assert ScanInv(s, x);
      var c := s.scans[x];
      match step
      case Fetch(page, more, retry) =>
        if page.Some? {
          MovedKeeps(s, x, c.(stage := Placing, page := page.value, todo := page.value, placed := {}, more := more));
        } else {
          MovedKeeps(s, x, c.(stage := Failed));
        }
      case Place(f) => PlacedKeeps(s, x, f);
      case Check =>
        if s.table.stopped {
          MovedKeeps(s, x, c.(stage := Failed));
        } else if |s.table.active| < LIMIT {
          MovedKeeps(s, x, c.(stage := Placing));
        } else {
          MovedKeeps(s, x, c.(stage := Waiting(s.table.channel)));
        }
      case Wake =>
        SignalsAside(s, s.(table := s.table.(nudged := s.table.nudged - {x})));
        MovedKeeps(s, x, c.(stage := Placing));
        MovedKeeps(s.(table := s.table.(nudged := s.table.nudged - {x})), x, c.(stage := Placing));
      case Forward => SignalsAside(s, ScanNext(s, x, step));
      case FinishPage => PageDoneKeeps(s, x);
      case Cancel => MovedKeeps(s, x, c.(stage := Failed));
      case CleanUp => CleanUpKeeps(s, x);
    }
  }

  lemma StepKeeps(s: State, step: Step)
    requires Inv(s)
    ensures Inv(Next(s, step))
  {
    match step
    case Flights(f) => FlightKeeps(s, f);
    case Scanning(x, c) => ScanKeeps(s, x, c);
    case Stop =>
      var n := Next(s, step);
      forall f ensures FlightInv(n, f) { assert FlightInv(s, f); }
      forall q ensures ActiveInv(n, q) { assert ActiveInv(s, q); }
      forall d ensures ListedInv(n, d) { assert ListedInv(s, d); }
      forall y ensures ScanInv(n, y) { assert ScanInv(s, y); }
  }

  lemma {:induction false} RunKeeps(steps: seq<Step>)
    ensures Inv(Exec(INITIAL, steps))
  {
    if steps != [] {
      RunKeeps(steps[..|steps| - 1]);
      StepKeeps(Exec(INITIAL, steps[..|steps| - 1]), steps[|steps| - 1]);
    }
  }

  // What holds in every reachable state

  ghost predicate Reachable(s: State) {
    exists steps :: s == Exec(INITIAL, steps)
  }

  lemma ReachableInv(s: State)
    requires Reachable(s)
    ensures Inv(s)
  {
    var steps :| s == Exec(INITIAL, steps);
    RunKeeps(steps);
  }

  /**
   At most `LIMIT` flights, one a package; ending a flight removes that flight and no other, and a
   flight has ended its first attempt by then, so nobody waits for one that will never come.
   */
  lemma FlightsBounded(s: State, f: FlightId, g: FlightId)
    requires Reachable(s)
    ensures |s.table.active| <= LIMIT
    ensures f in s.flights && !s.flights[f].ended ==>
              s.flights[f].package in s.table.active && s.table.active[s.flights[f].package] == f
    ensures f in s.flights && s.flights[f].ended ==> s.flights[f].attempted
    ensures f in s.flights && g in s.flights && !s.flights[f].ended && !s.flights[g].ended ==>
              s.flights[f].package == s.flights[g].package ==> f == g
  {
    ReachableInv(s);
    assert FlightInv(s, f) && FlightInv(s, g);
  }

  /** A scan that waits for a channel nobody has closed is waiting for good reason: there is no room. */
  lemma NoMissedCapacity(s: State, x: ScanId)
    requires Reachable(s)
    ensures x in s.scans && s.scans[x].stage.Waiting? && !(s.scans[x].stage.channel < s.table.channel) ==>
              |s.table.active| == LIMIT
  {
    ReachableInv(s);
    assert ScanInv(s, x);
  }

  /**
   Until it leaves, a scan is the one the table lists for its device; so there is one a device, and
   neither a scan's own end nor its later clean-up takes a successor off the table.
   */
  lemma SuccessorsStay(s: State, x: ScanId, step: ScanStep, d: Device)
    requires Reachable(s)
    ensures x in s.scans && !s.scans[x].stage.Left? ==>
              s.scans[x].device in s.table.scans && s.table.scans[s.scans[x].device] == x
    ensures d in s.table.scans && s.table.scans[d] != x ==>
              d in ScanNext(s, x, step).table.scans && ScanNext(s, x, step).table.scans[d] == s.table.scans[d]
  {
    ReachableInv(s);
    assert ScanInv(s, x) && ListedInv(s, d);
  }

  /** Every package of the page at hand is still to be placed or has a flight among those placed. */
  ghost predicate ServedInv(s: State, x: ScanId) {
    x in s.scans ==> forall p :: p in s.scans[x].page ==> p in s.scans[x].todo || HasFlight(s, x, p)
  }

  ghost predicate HasFlight(s: State, x: ScanId, p: Package)
    requires x in s.scans
  {
    exists f :: f in s.scans[x].placed && f in s.flights && s.flights[f].package == p
  }

  lemma FlightsKept(s: State, n: State, x: ScanId)
    requires x in s.scans && x in n.scans && ServedInv(s, x)
    requires n.scans[x].page == s.scans[x].page && n.scans[x].todo == s.scans[x].todo
    requires s.scans[x].placed <= n.scans[x].placed
    requires forall f :: f in s.flights ==> f in n.flights && n.flights[f].package == s.flights[f].package
    ensures ServedInv(n, x)
  {
    forall p | p in n.scans[x].page && p !in n.scans[x].todo ensures HasFlight(n, x, p) {
      assert HasFlight(s, x, p);
      var f :| f in s.scans[x].placed && f in s.flights && s.flights[f].package == p;
    }
  }

  lemma PlacedServes(s: State, x: ScanId, f: FlightId, y: ScanId)
    requires Inv(s) && ServedInv(s, y)
    requires x in s.scans && s.scans[x].stage.Placing? && s.scans[x].todo != [] && f !in s.flights
    ensures ServedInv(Placed(s, x, f), y)
  {
    var n, c := Placed(s, x, f), s.scans[x];
    var flight := Tried(s.table, c.todo[0], f).1;
    assert ActiveInv(s, c.todo[0]);
    if y == x && flight.Some? {
      forall p | p in c.page && p !in c.todo[1..] ensures HasFlight(n, x, p) {
        if p == c.todo[0] {
          assert n.flights[flight.value].package == p;
        } else {
          assert p !in c.todo && HasFlight(s, x, p);
          var g :| g in c.placed && g in s.flights && s.flights[g].package == p;
        }
      }
    } else if y in s.scans {
      FlightsKept(s, n, y);
    }
  }

  /** No other step of any scan touches the page a scan has at hand, nor any flight. */
  lemma PageUntouched(s: State, x: ScanId, step: ScanStep, y: ScanId)
    requires y in s.scans && !step.Place? && !(step.Fetch? && x == y)
    ensures var n := ScanNext(s, x, step);
            && n.flights == s.flights
            && (y in n.scans ==>
                 && n.scans[y].page == s.scans[y].page && n.scans[y].todo == s.scans[y].todo
                 && n.scans[y].placed == s.scans[y].placed)
  {
  }

  lemma FetchServes(s: State, x: ScanId, step: ScanStep)
    requires step.Fetch? && ServedInv(s, x)
    ensures ServedInv(ScanNext(s, x, step), x)
  {
    if x in s.scans && ScanNext(s, x, step).scans[x].page == s.scans[x].page && step.page.None? {
      FlightsKept(s, ScanNext(s, x, step), x);
    }
  }

  lemma ScanServes(s: State, x: ScanId, step: ScanStep, y: ScanId)
    requires Inv(s) && ServedInv(s, y)
    ensures ServedInv(ScanNext(s, x, step), y)
  {
    var n := ScanNext(s, x, step);
    if step.Place? {
      if n != s { PlacedServes(s, x, step.flight, y); }
    } else if step.Fetch? && x == y {
      FetchServes(s, x, step);
    } else if y in s.scans {
      PageUntouched(s, x, step, y);
      if y in n.scans { FlightsKept(s, n, y); }
    }
  }

  lemma StepServes(s: State, step: Step, y: ScanId)
    requires Inv(s) && ServedInv(s, y)
    ensures ServedInv(Next(s, step), y)
  {
    match step
    case Scanning(x, c) => ScanServes(s, x, c, y);
    case _ => if y in s.scans { FlightsKept(s, Next(s, step), y); }
  }

  lemma {:induction false} RunServes(steps: seq<Step>, y: ScanId)
    ensures ServedInv(Exec(INITIAL, steps), y)
  {
    if steps != [] {
      RunServes(steps[..|steps| - 1], y);
      RunKeeps(steps[..|steps| - 1]);
      StepServes(Exec(INITIAL, steps[..|steps| - 1]), steps[|steps| - 1], y);
    }
  }

  /** A scan goes on from a page only after every package on it has had a flight that made an attempt. */
  lemma PageServed(s: State, x: ScanId, p: Package)
    requires Reachable(s) && x in s.scans && ScanNext(s, x, FinishPage) != s && p in s.scans[x].page
    ensures exists f :: f in s.scans[x].placed && f in s.flights && s.flights[f].package == p && s.flights[f].attempted
  {
    var steps :| s == Exec(INITIAL, steps);
    RunServes(steps, x);
    assert HasFlight(s, x, p);
    var f :| f in s.scans[x].placed && f in s.flights && s.flights[f].package == p;
    assert s.flights[f].attempted;
  }

  // What each step brings about

  /** A package gets a flight exactly if it has one or there is room, and nothing starts once stopped. */
  lemma TriedExactly(t: Table, p: Package, f: FlightId)
    ensures var (u, flight) := Tried(t, p, f);
            && (flight.Some? <==> !t.stopped && (p in t.active || |t.active| < LIMIT))
            && (flight.Some? ==> p in u.active && u.active[p] == flight.value)
            && (flight.Some? && p in t.active ==> u == t)
            && (flight.None? ==> u == t)
  {
  }

  /** A scan is asked for exactly once: it is listed afterwards, or the one that was listed is flagged. */
  lemma RequestTakes(s: State, x: ScanId, d: Device, wake: bool)
    requires Inv(s) && x !in s.scans && x !in s.table.restart && !s.table.stopped
    ensures var n := Next(s, Scanning(x, Request(d, wake)));
            && d in n.table.scans
            && (d !in s.table.scans ==>
                 n.table.scans[d] == x && x in n.scans && n.scans[x].stage.Fetching? && n.scans[x].first)
            && (d in s.table.scans ==> n.table.scans[d] == s.table.scans[d] && n.table.scans[d] in n.table.restart)
            && (wake && d in s.table.scans ==> n.table.scans[d] in n.table.nudged)
  {
  }

  /** A fetched page is placed package by package, and a scan is held up exactly when there is no room. */
  lemma PlacingGoesOn(s: State, x: ScanId, f: FlightId, page: seq<Package>, more: bool, retry: bool)
    requires Inv(s) && x in s.scans && f !in s.flights
    ensures s.scans[x].stage.Fetching? ==>
              var n := ScanNext(s, x, Fetch(Some(page), more, retry));
              n.scans[x].stage.Placing? && n.scans[x].todo == n.scans[x].page == page && n.scans[x].more == more
    ensures s.scans[x].stage.Fetching? ==>
              && (ScanNext(s, x, Fetch(None, more, true)) == s)
              && ScanNext(s, x, Fetch(None, more, false)).scans[x].stage.Failed?
    ensures s.scans[x].stage.Placing? && s.scans[x].todo != [] ==> ScanNext(s, x, Forward) == s
    ensures s.scans[x].stage.Placing? && s.scans[x].todo != [] ==>
              var n, p := ScanNext(s, x, Place(f)), s.scans[x].todo[0];
              if !s.table.stopped && (p in s.table.active || |s.table.active| < LIMIT)
              then n.scans[x].stage.Placing? && n.scans[x].todo == s.scans[x].todo[1..] && p in n.table.active
              else n.scans[x].stage.Blocked? && n.scans[x].todo == s.scans[x].todo && n.table == s.table
  {
  }

  /** A scan held up goes on as soon as there is room, and gives up once stopped. */
  lemma BlockedGoesOn(s: State, x: ScanId)
    requires Inv(s) && x in s.scans
    ensures s.scans[x].stage.Blocked? ==>
              var n := ScanNext(s, x, Check);
              if s.table.stopped then n.scans[x].stage.Failed?
              else if |s.table.active| < LIMIT then n.scans[x].stage.Placing?
              else n.scans[x].stage == Waiting(s.table.channel)
    ensures s.scans[x].stage.Waiting? && (s.scans[x].stage.channel < s.table.channel || x in s.table.nudged) ==>
              ScanNext(s, x, Wake).scans[x].stage.Placing?
    ensures s.scans[x].stage.Waiting? && s.scans[x].stage.channel == s.table.channel ==>
              x !in ScanNext(s, x, Wake).table.nudged
  {
  }

  /** A flight asked for is started, not yet attempted, exactly if the package has none and there is room. */
  lemma FlightStarts(s: State, f: FlightId, p: Package)
    requires Inv(s) && f !in s.flights
    ensures var n := Next(s, Flights(TryFlight(f, p)));
            && (f in n.flights <==> !s.table.stopped && p !in s.table.active && |s.table.active| < LIMIT)
            && (f in n.flights ==> n.flights[f] == Flight(p, false, false) && n.table.active == s.table.active[p := f])
            && (f !in n.flights ==> n == s)
  {
  }

  /** A flight that ends leaves room, and wakes every scan that waits for it; so does a stop. */
  lemma EndingWakes(s: State, f: FlightId, x: ScanId)
    requires Inv(s) && f in s.flights && !s.flights[f].ended
    requires x in s.scans && s.scans[x].stage.Waiting?
    ensures var n := FlightNext(FlightNext(s, FinishAttempt(f)), EndFlight(f));
            && n.flights[f].attempted && n.flights[f].ended && s.flights[f].package !in n.table.active
            && ScanNext(n, x, Wake).scans[x].stage.Placing?
    ensures ScanNext(Next(s, Stop), x, Wake).scans[x].stage.Placing?
  {
    assert FlightInv(s, f) && ScanInv(s, x);
  }

  /** A page whose flights have all made an attempt is followed by the next, by a new pass or by the end. */
  lemma PassesGoOn(s: State, x: ScanId)
    requires Inv(s) && x in s.scans && s.scans[x].stage.Placing? && s.scans[x].todo == []
    requires forall f :: f in s.scans[x].placed ==> f in s.flights && s.flights[f].attempted
    ensures var n := ScanNext(s, x, FinishPage);
            && (s.scans[x].more ==> n.scans[x].stage.Fetching? && !n.scans[x].first && n.table == s.table)
            && (!s.scans[x].more && x in s.table.restart ==>
                 n.scans[x].stage.Fetching? && n.scans[x].first && x !in n.table.restart)
            && (!s.scans[x].more && x !in s.table.restart ==>
                 n.scans[x].stage.Left? && s.scans[x].device !in n.table.scans)
  {
    assert ScanInv(s, x) && ListedInv(s, s.scans[x].device);
  }

  /** A scan that gave up makes way for the next. */
  lemma FailedMakesWay(s: State, x: ScanId)
    requires Inv(s) && x in s.scans && !s.scans[x].stage.Left?
    ensures var n := ScanNext(ScanNext(s, x, Cancel), x, CleanUp);
            x !in n.scans && s.scans[x].device !in n.table.scans
  {
    assert ScanInv(s, x);
  }

  /** A nudge that reaches a scan waiting for attempts is passed on to the flights it placed. */
  lemma NudgePassedOn(s: State, x: ScanId, f: FlightId)
    requires Inv(s) && x in s.scans && s.scans[x].stage.Placing? && s.scans[x].todo == [] && x in s.table.nudged
    ensures f in s.scans[x].placed ==> f in ScanNext(s, x, Forward).table.woken
    ensures x !in ScanNext(s, x, Forward).table.nudged && ScanNext(s, x, Forward).scans == s.scans
    ensures f in s.flights ==> f in FlightNext(s, Signal(f)).table.woken
    ensures f !in FlightNext(s, Rouse(f)).table.woken
  {
  }

  /** Of these three, none is there that was not, and the coordinator is stopped. */
  ghost predicate NothingStarted(s: State, n: State, f: FlightId, x: ScanId, p: Package) {
    && n.table.stopped && (f in n.flights ==> f in s.flights) && (x in n.scans ==> x in s.scans)
    && (p in n.table.active ==> p in s.table.active)
  }

  lemma StoppedFlights(s: State, step: FlightStep, f: FlightId, x: ScanId, p: Package)
    requires s.table.stopped
    ensures NothingStarted(s, FlightNext(s, step), f, x, p)
  {
  }

  lemma StoppedScans(s: State, y: ScanId, step: ScanStep, f: FlightId, x: ScanId, p: Package)
    requires s.table.stopped
    ensures NothingStarted(s, ScanNext(s, y, step), f, x, p)
  {
  }

  /** Once stopped, no flight and no scan ever starts. */
  lemma {:induction false} StoppedForGood(s: State, steps: seq<Step>, f: FlightId, x: ScanId, p: Package)
    requires s.table.stopped
    ensures NothingStarted(s, Exec(s, steps), f, x, p)
  {
    if steps != [] {
      var before := Exec(s, steps[..|steps| - 1]);
      StoppedForGood(s, steps[..|steps| - 1], f, x, p);
      match steps[|steps| - 1]
      case Flights(step) => StoppedFlights(before, step, f, x, p);
      case Scanning(y, step) => StoppedScans(before, y, step, f, x, p);
      case Stop =>
    }
  }

  lemma StopTakes(s: State)
    ensures Next(s, Stop).table.stopped
  {
  }

  // Requests during a scan

  /** A run written out: the state before each step and the one after the last. */
  ghost predicate IsRun(states: seq<State>, steps: seq<Step>) {
    && |states| == |steps| + 1 && states[0] == INITIAL
    && forall k: nat :: k < |steps| ==> Follows(states, steps, k)
  }

  ghost predicate Follows(states: seq<State>, steps: seq<Step>, k: nat)
    requires k < |steps| < |states|
  {
    states[k + 1] == Next(states[k], steps[k])
  }

  lemma {:induction false} RunInv(states: seq<State>, steps: seq<Step>, k: nat)
    requires IsRun(states, steps) && k <= |steps|
    ensures Inv(states[k])
  {
    if k == 0 {
      RunKeeps([]);
    } else {
      RunInv(states, steps, k - 1);
      assert Follows(states, steps, k - 1);
      StepKeeps(states[k - 1], steps[k - 1]);
    }
  }

  /** The scan still has a pass to begin. */
  ghost predicate Owes(s: State, x: ScanId) {
    && x in s.scans && !s.scans[x].stage.Left?
    && (x in s.table.restart || (s.scans[x].stage.Fetching? && s.scans[x].first))
  }

  ghost predicate GaveUp(s: State, x: ScanId) {
    x in s.scans && s.scans[x].stage.Failed?
  }

  ghost predicate Begins(s: State, step: Step, x: ScanId) {
    && step.Scanning? && step.id == x && step.scan.Fetch? && step.scan.page.Some?
    && x in s.scans && s.scans[x].stage.Fetching? && s.scans[x].first
  }

  /** Nobody else's step changes what a scan owes. */
  lemma OthersLeaveDebt(s: State, y: ScanId, step: ScanStep, x: ScanId)
    requires Inv(s) && Owes(s, x) && x != y
    ensures Owes(ScanNext(s, y, step), x)
  {
    assert ScanInv(s, x) && ScanInv(s, y);
  }

  lemma OwnStepKeepsDebt(s: State, x: ScanId, step: ScanStep)
    requires Inv(s) && Owes(s, x) && !GaveUp(s, x) && !Begins(s, Scanning(x, step), x)
    ensures Owes(ScanNext(s, x, step), x) || GaveUp(ScanNext(s, x, step), x)
  {
    assert ScanInv(s, x);
  }

  lemma DebtNext(s: State, step: Step, x: ScanId)
    requires Inv(s) && Owes(s, x) && !GaveUp(s, x) && !Begins(s, step, x)
    ensures Owes(Next(s, step), x) || GaveUp(Next(s, step), x)
  {
    if step.Scanning? {
      if step.id == x { OwnStepKeepsDebt(s, x, step.scan); } else { OthersLeaveDebt(s, step.id, step.scan, x); }
    }
  }

  /** From a request on, and until a pass begins, the scan owes one unless it has given up. */
  lemma {:induction false} OwesUntilFetched(states: seq<State>, steps: seq<Step>, i: nat, j: nat, x: ScanId)
    requires IsRun(states, steps) && i <= j <= |steps| && Owes(states[i], x)
    requires forall k :: i <= k < j ==> !Begins(states[k], steps[k], x) && !GaveUp(states[k], x)
    ensures Owes(states[j], x) || GaveUp(states[j], x)
  {
    if i < j {
      OwesUntilFetched(states, steps, i, j - 1, x);
      RunInv(states, steps, j - 1);
      assert Follows(states, steps, j - 1);
      DebtNext(states[j - 1], steps[j - 1], x);
    }
  }

  lemma RequestOwes(s: State, y: ScanId, d: Device, wake: bool)
    requires Inv(s) && !s.table.stopped && d in s.table.scans && y !in s.scans && y !in s.table.restart
    ensures Owes(Next(s, Scanning(y, Request(d, wake))), s.table.scans[d])
  {
    assert ListedInv(s, d);
  }

  /**
   A request is made at step `i` while scan `x` is under way; at step `j`, never having given up, `x`
   ends a pass and leaves the table. Between the two it has read the first page again, successfully.
   */
  lemma RequestHonoured(
    states: seq<State>, steps: seq<Step>, i: nat, j: nat, x: ScanId, y: ScanId, d: Device, wake: bool)
    requires IsRun(states, steps) && i < j < |steps|
    requires steps[i] == Scanning(y, Request(d, wake)) && y !in states[i].scans && y !in states[i].table.restart
    requires !states[i].table.stopped && d in states[i].table.scans && states[i].table.scans[d] == x
    requires forall k :: i < k <= j ==> !GaveUp(states[k], x)
    requires x in states[j].scans && !states[j].scans[x].stage.Left?
    requires x in states[j + 1].scans && states[j + 1].scans[x].stage.Left?
    ensures exists k :: i < k <= j && Begins(states[k], steps[k], x)
  {
    RunInv(states, steps, i);
    assert Follows(states, steps, i) && Follows(states, steps, j);
    RequestOwes(states[i], y, d, wake);
    RunInv(states, steps, j);
    if forall k :: i < k <= j ==> !Begins(states[k], steps[k], x) {
      OwesUntilFetched(states, steps, i + 1, j, x);
      DebtNext(states[j], steps[j], x);
      assert false;
    }
  }
}
