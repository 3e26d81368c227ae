/**
 The app-server client's memory of calls it gave up on. An answer to one of them is to be dropped
 quietly; an answer to a call the client knows nothing of is a fault. The memory is a window: only
 the last calls given up are remembered, in a list that may also hold calls answered since.
 */
module AbandonedCalls {
  type CallId = nat

  const LIMIT := 4096

  datatype Outcome = Delivered | Dropped | Unknown

  datatype Calls = Calls(pending: set<CallId>, abandoned: set<CallId>, order: seq<CallId>, done: bool)

  /** `log` is every call given up, in order; `answered` and `unwritten` those the server answered or never saw. */
  datatype State = State(calls: Calls, issued: nat, log: seq<CallId>, answered: set<CallId>, unwritten: set<CallId>)

  /** `TakeBack` is a caller who sees that the client is done and takes the call out, without giving it up. */
  datatype Step =
    | Issue | Abandon(id: CallId) | NotWritten(id: CallId) | Answer(id: CallId)
    | Shutdown | Drain | TakeBack(id: CallId)

  const INITIAL := State(Calls({}, {}, [], false), 0, [], {}, {})

  // The critical sections

  function Removed(c: Calls, id: CallId, abandon: bool): Calls {
    if id !in c.pending then c
    else if !abandon then c.(pending := c.pending - {id})
    else if |c.order| + 1 > LIMIT then
      var longer := c.order + [id];
      c.(pending := c.pending - {id}, abandoned := c.abandoned + {id} - {longer[0]}, order := longer[1..])
    else c.(pending := c.pending - {id}, abandoned := c.abandoned + {id}, order := c.order + [id])
  }

  function Completed(c: Calls, id: CallId): (Calls, Outcome) {
    if id in c.pending then (c.(pending := c.pending - {id}), Delivered)
    else if id in c.abandoned then (c.(abandoned := c.abandoned - {id}), Dropped)
    else (c, if c.done then Dropped else Unknown)
  }

  /** The client is done; a while later every pending call is answered with the error it ended with. */
  function Closed(c: Calls): Calls {
    c.(done := true)
  }

  function Drained(c: Calls): Calls {
    c.(pending := {})
  }

  class Client {
    var pending: set<CallId>
    var abandoned: set<CallId>
    var abandonOrder: seq<CallId>
    var done: bool

    function Contents(): Calls
      reads this
    {
      Calls(pending, abandoned, abandonOrder, done)
    }

    constructor ()
      ensures Contents() == Calls({}, {}, [], false)
    {
      pending, abandoned, abandonOrder, done := {}, {}, [], false;
    }

    method Terminate()
      modifies this
      ensures Contents() == Drained(Closed(old(Contents())))
    {
      done := true;
      FailPending();
    }

    method FailPending()
      modifies this
      ensures Contents() == Drained(old(Contents()))
    {
      while pending != {}
        invariant done == old(done) && abandoned == old(abandoned) && abandonOrder == old(abandonOrder)
        decreases pending
      {
        var id :| id in pending;
        pending := pending - {id};
      }
    }

    method RemovePending(id: CallId, abandon: bool) returns (removed: bool)
      modifies this
      ensures removed <==> id in old(pending)
      ensures Contents() == Removed(old(Contents()), id, abandon)
    {
      if id !in pending { return false; }
      pending := pending - {id};
      if !abandon { return true; }
      abandoned, abandonOrder := abandoned + {id}, abandonOrder + [id];
      if |abandonOrder| > LIMIT {
        var oldest := abandonOrder[0];
        abandonOrder := abandonOrder[1..];
        abandoned := abandoned - {oldest};
      }
      removed := true;
    }

    method Complete(id: CallId) returns (outcome: Outcome)
      modifies this
      ensures (Contents(), outcome) == Completed(old(Contents()), id)
    {
      if id in pending {
        pending := pending - {id};
        return Delivered;
      }
      if id in abandoned {
        abandoned := abandoned - {id};
        return Dropped;
      }
      outcome := if done then Dropped else Unknown;
    }
  }

  // Whole runs

  function Next(s: State, step: Step): State {
    match step
    case Shutdown => s.(calls := Closed(s.calls))
    case Drain => if s.calls.done then s.(calls := Drained(s.calls)) else s
    case TakeBack(id) => if s.calls.done then s.(calls := Removed(s.calls, id, false)) else s
    case Issue =>
      if s.calls.done then s
      else s.(calls := s.calls.(pending := s.calls.pending + {s.issued}), issued := s.issued + 1)
    case Abandon(id) =>
      if id in s.calls.pending then s.(calls := Removed(s.calls, id, true), log := s.log + [id]) else s
    case NotWritten(id) =>
      if id in s.calls.pending then s.(calls := Removed(s.calls, id, false), unwritten := s.unwritten + {id}) else s
    case Answer(id) =>
      if id < s.issued && id !in s.answered && id !in s.unwritten then
        s.(calls := Completed(s.calls, id).0, answered := s.answered + {id})
      else s
  }

  function Exec(steps: seq<Step>): State {
    if steps == [] then INITIAL else Next(Exec(steps[..|steps| - 1]), steps[|steps| - 1])
  }

  // The invariant

  /** The part of the log the client still remembers. */
  function Window(log: seq<CallId>): seq<CallId> {
    if |log| <= LIMIT then log else log[|log| - LIMIT..]
  }

  /** The call has been neither given up nor answered. */
  predicate Outstanding(s: State, id: CallId) {
    id < s.issued && id !in s.log && id !in s.answered && id !in s.unwritten
  }

  ghost predicate IdInv(s: State, id: CallId) {
    && (id in s.calls.abandoned <==> id in Window(s.log) && id !in s.answered)
    && (id in s.calls.pending ==> Outstanding(s, id))
    && (!s.calls.done && Outstanding(s, id) ==> id in s.calls.pending)
    && (id in s.log ==> id < s.issued && id !in s.unwritten)
    && (id in s.unwritten ==> id < s.issued && id !in s.answered)
    && (id in s.answered ==> id < s.issued)
  }

  ghost predicate Inv(s: State) {
    && s.calls.order == Window(s.log)
    && (forall i, j :: 0 <= i < j < |s.log| ==> s.log[i] != s.log[j])
    && (forall id :: IdInv(s, id))
  }

  lemma WindowSnoc(log: seq<CallId>, id: CallId)
    ensures Window(log + [id]) == if |Window(log)| + 1 > LIMIT then (Window(log) + [id])[1..] else Window(log) + [id]
  {
  }

  /** The oldest remembered call is forgotten, and it is nowhere else in the window. */
  lemma AbandonKeeps(s: State, id: CallId)
    requires Inv(s) && id in s.calls.pending
    ensures Inv(Next(s, Abandon(id)))
  {
    var n := Next(s, Abandon(id));
    assert IdInv(s, id);
    WindowSnoc(s.log, id);
    forall i, j | 0 <= i < j < |n.log| ensures n.log[i] != n.log[j] {
      if j == |s.log| { assert s.log[i] in s.log; }
    }
    forall x ensures IdInv(n, x) {
      assert IdInv(s, x);
      WindowMembers(s.log, id, x);
    }
  }

  lemma WindowMembers(log: seq<CallId>, id: CallId, x: CallId)
    requires forall i, j :: 0 <= i < j < |log| ==> log[i] != log[j]
    requires id !in log
    ensures x in Window(log + [id]) <==>
              (x == id || x in Window(log)) && !(|Window(log)| + 1 > LIMIT && x == (Window(log) + [id])[0])
  {
    WindowSnoc(log, id);
    var longer := Window(log) + [id];
    assert forall i, j :: 0 <= i < j < |longer| ==> longer[i] != longer[j];
    TailMembers(longer, x);
  }

  lemma TailMembers(s: seq<CallId>, x: CallId)
    requires s != [] && forall i, j :: 0 <= i < j < |s| ==> s[i] != s[j]
    ensures x in s[1..] <==> x in s && x != s[0]
  {
    assert s == [s[0]] + s[1..];
    if x in s[1..] {
      var k :| 0 <= k < |s| - 1 && s[1..][k] == x;
      assert s[k + 1] == x;
    }
  }

  lemma StepKeeps(s: State, step: Step)
    requires Inv(s)
    ensures Inv(Next(s, step))
  {
    if step.Abandon? {
      if step.id in s.calls.pending { AbandonKeeps(s, step.id); }
    } else {
      var n := Next(s, step);
      forall x ensures IdInv(n, x) { assert IdInv(s, x); }
    }
  }

  lemma {:induction false} RunKeeps(steps: seq<Step>)
    ensures Inv(Exec(steps))
  {
    if steps != [] {
      RunKeeps(steps[..|steps| - 1]);
      StepKeeps(Exec(steps[..|steps| - 1]), steps[|steps| - 1]);
    }
  }

  // What holds in every reachable state

  ghost predicate Reachable(s: State) {
    exists steps :: s == Exec(steps)
  }

  lemma ReachableInv(s: State)
    requires Reachable(s)
    ensures Inv(s)
  {
    var steps :| s == Exec(steps);
    RunKeeps(steps);
  }

  lemma Disjoint(s: State, id: CallId)
    requires Reachable(s)
    ensures !(id in s.calls.pending && id in s.calls.abandoned)
    ensures id in s.calls.abandoned ==> id in s.calls.order
    ensures |s.calls.order| <= LIMIT
  {
    ReachableInv(s);
    assert IdInv(s, id);
    WindowInside(s.log, id);
  }

  lemma WindowInside(log: seq<CallId>, id: CallId)
    ensures id in Window(log) ==> id in log
  {
  }

  /**
   The first answer to a written call is taken for unknown exactly when the client is not done, the
   call was given up and at least `LIMIT` others were given up after it.
   */
  lemma UnknownExactly(s: State, id: CallId)
    requires Reachable(s)
    requires id < s.issued && id !in s.answered && id !in s.unwritten
    ensures Completed(s.calls, id).1.Unknown? <==>
              !s.calls.done && exists k :: 0 <= k < |s.log| && s.log[k] == id && |s.log| - 1 - k >= LIMIT
  {
    ReachableInv(s);
    assert IdInv(s, id);
    if id in s.log {
      var k :| 0 <= k < |s.log| && s.log[k] == id;
      var first := if |s.log| <= LIMIT then 0 else |s.log| - LIMIT;
      assert Window(s.log) == s.log[first..];
      if k >= first {
        assert Window(s.log)[k - first] == id;
      } else {
        assert id !in s.log[first..];
      }
    }
  }

  /** Until the client is done the first answer to a written call reaches its caller exactly unless it gave up. */
  lemma DeliveredExactly(s: State, id: CallId)
    requires Reachable(s)
    requires id < s.issued && id !in s.answered && id !in s.unwritten
    ensures !s.calls.done ==> (Completed(s.calls, id).1.Delivered? <==> id !in s.log)
    ensures Completed(s.calls, id).1.Delivered? ==> id !in s.log
  {
    ReachableInv(s);
    assert IdInv(s, id);
    WindowInside(s.log, id);
  }

  /** A call is pending from its issue until it is given up, taken back, answered or drained. */
  lemma PendingUntilOver(s: State, id: CallId)
    requires Reachable(s)
    ensures !s.calls.done ==> s.issued in Next(s, Issue).calls.pending
    ensures s.calls.done ==> Next(s, Issue) == s
    ensures id in s.calls.pending ==>
              && id !in Next(s, Abandon(id)).calls.pending && id in Next(s, Abandon(id)).log
              && id !in Next(s, NotWritten(id)).calls.pending && id in Next(s, NotWritten(id)).unwritten
              && id !in Next(s, Answer(id)).calls.pending && id in Next(s, Answer(id)).answered
              && (s.calls.done ==> id !in Next(s, TakeBack(id)).calls.pending)
    ensures id !in s.calls.pending ==> forall abandon :: Removed(s.calls, id, abandon) == s.calls
    ensures Next(Next(s, Shutdown), Drain).calls.pending == {} && Next(s, Shutdown).calls.done
  {
    ReachableInv(s);
    assert IdInv(s, id) && IdInv(s, s.issued);
  }
}
