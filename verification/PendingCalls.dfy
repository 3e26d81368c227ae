/**
 A table of calls waiting for their answers, kept three times over: by the broker for the calls it
 makes of a peer, by the connector for the calls it makes of the broker, and by the app-server client.
 They differ only in how they shut down.
 */
module PendingCalls {
  type CallId = nat

  /**
   `Together`: everything is drained, answered and closed in one critical section.
   `CloseThenAnswer`: the session is closed first; then one critical section drains and answers.
   `CloseThenCollect`: closed first; one critical section drains; the answers follow one by one.
   */
  datatype Style = Together | CloseThenAnswer | CloseThenCollect

  datatype Claimant = Nobody | Response | Caller | Shutdown
  datatype Waiter = Waiting | MustReceive | Returned

  /**
   `claims` counts removals from the table, `answers` what was ever put into the one-slot channel,
   `taken` what was read from it.
   */
  datatype Call = Call(claimant: Claimant, claims: nat, answers: nat, taken: nat, waiter: Waiter)

  /** `owed` are the claimed calls whose answer is still to be put into the channel. */
  datatype State = State(
    style: Style, limit: nat, pending: set<CallId>, closed: bool, drained: bool,
    owed: set<CallId>, calls: map<CallId, Call>)

  datatype Step =
    | Add(id: CallId)
    | Claim(id: CallId)
    | Answer(id: CallId)
    | GiveUp(id: CallId)
    | WriteFailed(id: CallId)
    | Receive(id: CallId)
    | Finish
    | Close
    | Drain

  function Start(style: Style, limit: nat): State {
    State(style, limit, {}, false, false, {}, map[])
  }

  // The table itself

  /** Whether a call got in: only into an open table below its limit. */
  function Added(pending: set<CallId>, closed: bool, limit: nat, id: CallId): (set<CallId>, bool) {
    if closed || |pending| >= limit then (pending, false) else (pending + {id}, true)
  }

  /** Whoever takes a call out of the table has it, and nobody else. */
  function Taken(pending: set<CallId>, id: CallId): (set<CallId>, bool) {
    if id in pending then (pending - {id}, true) else (pending, false)
  }

  class Table {
    const limit: nat
    var pending: set<CallId>
    var closed: bool

    constructor (limit: nat)
      ensures pending == {} && !closed && this.limit == limit
    {
      this.limit := limit;
      pending, closed := {}, false;
    }

    method AddPending(id: CallId) returns (added: bool)
      modifies this`pending
      ensures (pending, added) == Added(old(pending), closed, limit, id)
    {
      if closed || |pending| >= limit { return false; }
      pending := pending + {id};
      added := true;
    }

    method RemovePending(id: CallId) returns (removed: bool)
      modifies this`pending
      ensures (pending, removed) == Taken(old(pending), id)
    {
      if id !in pending { return false; }
      pending := pending - {id};
      removed := true;
    }

    /** The drain takes every call out once, each into `collected`, and leaves the table closed. */
    method DrainAll() returns (collected: seq<CallId>)
      modifies this
      ensures pending == {} && closed
      ensures forall id :: id in collected <==> id in old(pending)
      ensures forall i, j :: 0 <= i < j < |collected| ==> collected[i] != collected[j]
    {
      collected, closed := [], true;
      while pending != {}
        invariant closed && pending <= old(pending)
        invariant forall id :: id in collected <==> id in old(pending) - pending
        invariant forall i, j :: 0 <= i < j < |collected| ==> collected[i] != collected[j]
        decreases pending
      {
        var id :| id in pending;
        assert id !in collected;
        var taken := RemovePending(id);
        collected := collected + [id];
      }
    }
  }

  // Whole runs

  function Claimed(c: Call, who: Claimant): Call {
    c.(claimant := who, claims := c.claims + 1)
  }

  function Answered(c: Call): Call {
    c.(answers := c.answers + 1)
  }

  /** The caller takes its call back, or learns that somebody else has it. */
  function TakenBack(s: State, id: CallId): State
    requires id in s.calls
  {
    var (pending, mine) := Taken(s.pending, id);
    if mine then
      s.(pending := pending, calls := s.calls[id := Claimed(s.calls[id], Caller).(waiter := Returned)])
    else s.(calls := s.calls[id := s.calls[id].(waiter := MustReceive)])
  }

  function DrainedCalls(s: State): map<CallId, Call> {
    map id | id in s.calls ::
      if id !in s.pending then s.calls[id]
      else if s.style.CloseThenCollect? then Claimed(s.calls[id], Shutdown)
      else Answered(Claimed(s.calls[id], Shutdown))
  }

  function DrainedState(s: State): State {
    s.(pending := {}, drained := true, closed := true, calls := DrainedCalls(s),
       owed := if s.style.CloseThenCollect? then s.owed + s.pending else s.owed)
  }

  function Next(s: State, step: Step): State {
    match step
    case Add(id) =>
      var (pending, added) := Added(s.pending, s.closed, s.limit, id);
      if id in s.calls || !added then s
      else s.(pending := pending, calls := s.calls[id := Call(Nobody, 0, 0, 0, Waiting)])
    case Claim(id) =>
      var (pending, claimed) := Taken(s.pending, id);
      if claimed && id in s.calls then
        s.(pending := pending, owed := s.owed + {id}, calls := s.calls[id := Claimed(s.calls[id], Response)])
      else s
    case Answer(id) =>
      if id in s.owed && id in s.calls then
        s.(owed := s.owed - {id}, calls := s.calls[id := Answered(s.calls[id])])
      else s
    case GiveUp(id) => if id in s.calls && s.calls[id].waiter.Waiting? then TakenBack(s, id) else s
    case WriteFailed(id) =>
      if id in s.calls && s.calls[id].waiter.Waiting? then
        if s.style.CloseThenAnswer? then TakenBack(s, id)
        else
          var t := TakenBack(s, id);
          t.(calls := t.calls[id := t.calls[id].(waiter := Returned)])
      else s
    case Receive(id) =>
      if id in s.calls && !s.calls[id].waiter.Returned? && s.calls[id].taken < s.calls[id].answers then
        s.(calls := s.calls[id := s.calls[id].(taken := s.calls[id].taken + 1, waiter := Returned)])
      else s
    case Finish => if s.style.Together? && !s.closed then DrainedState(s) else s
    case Close => if s.style.Together? then s else s.(closed := true)
    case Drain => if s.style.Together? || !s.closed || s.drained then s else DrainedState(s)
  }

  function Exec(s: State, steps: seq<Step>): State {
    if steps == [] then s else Next(Exec(s, steps[..|steps| - 1]), steps[|steps| - 1])
  }

  // The invariant

  predicate Promised(c: Call) {
    c.claimant.Response? || c.claimant.Shutdown?
  }

  ghost predicate CallInv(s: State, id: CallId) {
    && (id in s.pending || id in s.owed ==> id in s.calls)
    && (id in s.calls ==>
          var c := s.calls[id];
          && c.claims <= 1 && c.answers <= 1 && c.taken <= c.answers
          && (id in s.pending <==> c.claims == 0) && (c.claims == 0 <==> c.claimant.Nobody?)
          && (Promised(c) ==> c.answers == if id in s.owed then 0 else 1)
          && (!Promised(c) ==> c.answers == 0 && id !in s.owed)
          && (c.waiter.MustReceive? ==> Promised(c) && c.taken == 0)
          && (c.waiter.Waiting? ==> !c.claimant.Caller? && c.taken == 0))
  }

  ghost predicate Inv(s: State) {
    && (s.drained ==> s.closed && s.pending == {})
    && (s.style.Together? && s.closed ==> s.drained)
    && (forall id :: CallInv(s, id))
  }

  predicate ByCaller(step: Step) {
    step.GiveUp? || step.WriteFailed? || step.Receive?
  }

  predicate ByShutdown(step: Step) {
    step.Finish? || step.Close? || step.Drain?
  }

  lemma CallerKeeps(s: State, step: Step)
    requires Inv(s) && ByCaller(step)
    ensures Inv(Next(s, step))
  {
    forall id ensures CallInv(Next(s, step), id) { assert CallInv(s, id); }
  }

  lemma ShutdownKeeps(s: State, step: Step)
    requires Inv(s) && ByShutdown(step)
    ensures Inv(Next(s, step))
  {
    forall id ensures CallInv(Next(s, step), id) { assert CallInv(s, id); }
  }

  lemma StepKeeps(s: State, step: Step)
    requires Inv(s)
    ensures Inv(Next(s, step))
  {
    if ByCaller(step) {
      CallerKeeps(s, step);
    } else if ByShutdown(step) {
      ShutdownKeeps(s, step);
    } else {
      forall id ensures CallInv(Next(s, step), id) { assert CallInv(s, id); }
    }
  }

  lemma {:induction false} RunKeeps(style: Style, limit: nat, steps: seq<Step>)
    ensures Inv(Exec(Start(style, limit), steps))
  {
    if steps != [] {
      RunKeeps(style, limit, steps[..|steps| - 1]);
      StepKeeps(Exec(Start(style, limit), steps[..|steps| - 1]), steps[|steps| - 1]);
    }
  }

  // What holds in every reachable state

  ghost predicate Reachable(s: State) {
    exists style, limit, steps :: s == Exec(Start(style, limit), steps)
  }

  lemma ReachableInv(s: State)
    requires Reachable(s)
    ensures Inv(s)
  {
    var style, limit, steps :| s == Exec(Start(style, limit), steps);
    RunKeeps(style, limit, steps);
  }

  /**
   A call leaves the table once, claimed by a response, by its caller or by the shutdown; and its
   channel never has to hold a second answer.
   */
  lemma ClaimedOnce(s: State, id: CallId)
    requires Reachable(s)
    ensures id in s.calls ==>
              && s.calls[id].claims <= 1 && s.calls[id].answers <= 1
              && (id !in s.pending <==> s.calls[id].claimant != Nobody)
              && (id in s.owed ==> s.calls[id].answers == 0)
  {
    ReachableInv(s);
    assert CallInv(s, id);
  }

  /** Whoever has to wait for an answer will get one: it is there, or somebody is about to put it there. */
  lemma NobodyStranded(s: State, id: CallId)
    requires Reachable(s)
    ensures id in s.calls && (s.calls[id].waiter.MustReceive? || (s.drained && s.calls[id].waiter.Waiting?)) ==>
              id in s.owed || s.calls[id].taken < s.calls[id].answers
  {
    ReachableInv(s);
    assert CallInv(s, id);
  }

  /** Once drained, the table stays empty: no later call gets in. */
  lemma {:induction false} DrainedForGood(s: State, steps: seq<Step>)
    requires Inv(s) && s.drained
    ensures Exec(s, steps).drained && Exec(s, steps).pending == {} && Exec(s, steps).calls.Keys == s.calls.Keys
    ensures Inv(Exec(s, steps))
  {
    if steps != [] {
      DrainedForGood(s, steps[..|steps| - 1]);
      StepKeeps(Exec(s, steps[..|steps| - 1]), steps[|steps| - 1]);
    }
  }

  /** A new call gets in exactly while the table is open and below its limit. */
  lemma AddedExactly(s: State, id: CallId)
    requires Reachable(s) && id !in s.calls
    ensures id in Next(s, Add(id)).pending <==> !s.closed && |s.pending| < s.limit
    ensures id in Next(s, Add(id)).calls <==> id in Next(s, Add(id)).pending
    ensures id in Next(s, Add(id)).calls ==> Next(s, Add(id)).calls[id].waiter.Waiting?
  {
    ReachableInv(s);
    assert CallInv(s, id);
  }

  /** A response to a pending call reaches its caller, and a caller that gives a pending call up is free at once. */
  lemma PendingCallEnds(s: State, id: CallId)
    requires Reachable(s) && id in s.pending && id in s.calls && s.calls[id].waiter.Waiting?
    ensures var n := Next(Next(Next(s, Claim(id)), Answer(id)), Receive(id));
            n.calls[id] == Call(Response, 1, 1, 1, Returned)
    ensures Next(s, GiveUp(id)).calls[id] == Call(Caller, 1, 0, 0, Returned)
    ensures Next(s, WriteFailed(id)).calls[id] == Call(Caller, 1, 0, 0, Returned)
  {
    ReachableInv(s);
    assert CallInv(s, id);
  }

  /** The caller of a call somebody else has claimed must wait for the answer, and gets it. */
  lemma ClaimedCallEnds(s: State, id: CallId)
    requires Reachable(s) && id in s.calls && id !in s.pending && s.calls[id].waiter.Waiting?
    ensures var n := Next(Next(Next(s, GiveUp(id)), Answer(id)), Receive(id));
            Next(s, GiveUp(id)).calls[id].waiter.MustReceive? && n.calls[id].waiter.Returned? && n.calls[id].taken == 1
    ensures Next(s, WriteFailed(id)).calls[id].waiter == if s.style.CloseThenAnswer? then MustReceive else Returned
  {
    ReachableInv(s);
    assert CallInv(s, id);
  }

  /** A shutdown takes its steps in order and once, and a caller that has returned takes no more answers. */
  lemma ShutdownOnce(s: State, id: CallId)
    requires Reachable(s)
    ensures s.drained ==> Next(s, Finish) == s && Next(s, Drain) == s
    ensures !s.closed ==> Next(s, Drain) == s
    ensures if s.style.Together? then Next(s, Close) == s && Next(s, Drain) == s else Next(s, Finish) == s
    ensures id in s.calls && s.calls[id].waiter.Returned? ==> Next(s, Receive(id)) == s
  {
    ReachableInv(s);
  }

  /** Whatever the style, the shutdown closes the table and claims every pending call for an error answer. */
  lemma ShutdownClaimsAll(s: State, id: CallId)
    requires Reachable(s) && !s.drained
    ensures var n := if s.style.Together? then Next(s, Finish) else Next(Next(s, Close), Drain);
            && n.drained && n.closed && n.pending == {}
            && (id in s.pending ==>
                 && id in n.calls && n.calls[id].claimant.Shutdown?
                 && (id in n.owed || n.calls[id].answers == 1)
                 && (id in n.owed <==> s.style.CloseThenCollect?))
            && (id in s.calls && id !in s.pending ==> id in n.calls && n.calls[id] == s.calls[id])
  {
    ReachableInv(s);
    assert CallInv(s, id);
  }
}
