/**
 The broker's side of a transfer: it asks the root to begin, copies every part from the offset the root
 reported in chunks it reads from the source, moves on only when an acknowledgement says what it should,
 and asks the root to finish. Calls may fail, answers may be anything, and offsets may be behind or ahead
 of what the root really holds.
 */
module ResultTransfer {
  import opened ResultInbox

  /** What the source answers a read: the bytes asked for, nothing, or anything at all. */
  datatype Read = Truthful | Unreachable | Other(offset: nat, data: Bytes, next: nat)

  /** One turn of the copy: the read, what befalls the write, and whether its acknowledgement is lost. */
  datatype Turn = Turn(read: Read, fault: Fault, lost: bool)

  const SMOOTH := Turn(Truthful, NoFault, false)

  function TurnAt(turns: seq<Turn>, i: nat): Turn {
    if i < |turns| then turns[i] else SMOOTH
  }

  predicate Honest(turns: seq<Turn>) {
    forall i :: 0 <= i < |turns| ==> !turns[i].read.Other?
  }

  predicate AllSmooth(turns: seq<Turn>) {
    forall k :: 0 <= k < |turns| ==> turns[k] == SMOOTH
  }

  /** The source side of a read, as the broker then checks it against what it asked for. */
  method ReadChunk(content: Bytes, offset: nat, limit: nat, read: Read) returns (r: Result<Bytes>)
    requires offset + limit <= |content|
    ensures r.Ok? ==> |r.value| == limit
    ensures read.Truthful? ==> r == Ok(content[offset..offset + limit])
    ensures read.Unreachable? ==> r.Err?
    ensures read.Other? ==>
              r == if read.offset == offset && |read.data| == limit && read.next == offset + limit
                   then Ok(read.data) else Err
  {
    if read.Unreachable? { return Err; }
    var at, data, next := offset, content[offset..offset + limit], offset + limit;
    if read.Other? { at, data, next := read.offset, read.data, read.next; }
    if at != offset || |data| != limit || next != offset + limit { return Err; }
    r := Ok(data);
  }

  /**
   A copy from `start` gets through exactly when there is nothing to copy, or the root stands where the
   copy starts, or it already has the first chunk of it and no more.
   */
  predicate Resumable(p: Part, content: Bytes, start: nat) {
    || start == |content|
    || (&& start < |content| && start % CHUNK == 0
        && (|| p.committed == start
            || (&& p.committed == Min(start + CHUNK, |content|) && p.committed <= |p.file|
                && p.file[start..p.committed] == content[start..p.committed])))
  }

  /** A chunk that has been read, written at `offset`: what its acknowledgement says and what is then final. */
  lemma ChunkWritten(p: Part, content: Bytes, offset: nat, data: Bytes, fault: Fault)
    requires ValidPart(p, content) && offset < |content| && |data| == Min(CHUNK, |content| - offset)
    ensures var (q, ok) := PartWritten(p, content, offset, data, fault);
            && ValidPart(q, content) && Grown(p, q)
            && (data == content[offset..offset + |data|] ==>
                 && (Matches(p, content) ==> Matches(q, content))
                 && (fault.NoFault? ==> (ok && q.committed == offset + |data| <==> Resumable(p, content, offset))))
  {
    var (q, ok) := PartWritten(p, content, offset, data, fault);
    PartWrittenKeeps(p, content, offset, data, fault);
    MatchesOn(p, q, content);
  }

  /** Only part `i` has changed, and its final bytes are still there. */
  predicate Only(before: Root, after: Root, i: nat) {
    && after.state == before.state && |before.parts| == |after.parts| && i < |before.parts|
    && Grown(before.parts[i], after.parts[i])
    && forall k :: 0 <= k < |before.parts| && k != i ==> before.parts[k] == after.parts[k]
  }

  /** The same for the whole entry. */
  lemma ChunkLanded(r: Root, content: seq<Bytes>, attempt: AttemptId, i: nat, offset: nat, data: Bytes, fault: Fault)
    requires ValidRoot(r, content) && i < |content| && offset < |content[i]|
    requires |data| == Min(CHUNK, |content[i]| - offset)
    ensures var (s, answer) := WrittenRoot(r, content, attempt, i, offset, data, fault);
            && Only(r, s, i)
            && (answer.Ok? ==> s.parts[i].committed == answer.value)
            && (data == content[i][offset..offset + |data|] ==>
                 && (Matches(r.parts[i], content[i]) ==> Matches(s.parts[i], content[i]))
                 && (fault.NoFault? && Open(r, attempt) ==>
                       (answer == Ok(offset + |data|) <==> Resumable(r.parts[i], content[i], offset))))
  {
    OnlyItself(r, content, i);
    ChunkWritten(r.parts[i], content[i], offset, data, fault);
  }

  /** The chunk at the broker's own offset, read, written and acknowledged, or not. */
  method CopyChunk(inbox: Inbox, attempt: AttemptId, i: nat, offset: nat, turn: Turn)
    returns (ok: bool, ghost trace: seq<RootStep>)
    requires inbox.Valid() && i < |inbox.content| && offset < |inbox.content[i]|
    modifies inbox`parts
    ensures inbox.Valid() && inbox.Contents() == RootExec(old(inbox.Contents()), inbox.content, trace)
    ensures Only(old(inbox.Contents()), inbox.Contents(), i)
    ensures ok ==> inbox.parts[i].committed == Min(offset + CHUNK, |inbox.content[i]|)
    ensures ok ==> turn.fault.NoFault? && !turn.lost && !turn.read.Unreachable?
    ensures !turn.read.Other? && old(Matches(inbox.parts[i], inbox.content[i])) ==>
              Matches(inbox.parts[i], inbox.content[i])
    ensures turn == SMOOTH && Open(inbox.Contents(), attempt) ==>
              (ok <==> old(Resumable(inbox.parts[i], inbox.content[i], offset)))
  {
    trace := [];
    ghost var before := inbox.Contents();
    OnlyItself(before, inbox.content, i);
    var limit := Min(CHUNK, |inbox.content[i]| - offset);
    var chunk := ReadChunk(inbox.content[i], offset, limit, turn.read);
    if chunk.Err? { return false, trace; }
    ChunkLanded(before, inbox.content, attempt, i, offset, chunk.value, turn.fault);
    var written := inbox.WritePart(attempt, i, offset, chunk.value, turn.fault);
    trace := [Write(attempt, i, offset, chunk.value, turn.fault)];
    RootSingle(before, inbox.content, trace[0]);
    ok := written.Ok? && !turn.lost && written.value == offset + limit;
  }

  lemma OnlyTrans(a: Root, b: Root, c: Root, i: nat)
    requires Only(a, b, i) && Only(b, c, i)
    ensures Only(a, c, i)
  {
    GrownTrans(a.parts[i], b.parts[i], c.parts[i]);
  }

  lemma OnlyItself(r: Root, content: seq<Bytes>, i: nat)
    requires ValidRoot(r, content) && i < |content|
    ensures Only(r, r, i)
  {
    assert ValidPart(r.parts[i], content[i]);
  }

  /**
   Copy one part from any offset within it. Whatever happens, final bytes stay; an honest source makes
   final only bytes of the package; success means the part is complete unless there was nothing to
   copy; and without a fault it succeeds exactly when the offset is one the root can be resumed from.
   */
  method RelayPart(inbox: Inbox, attempt: AttemptId, i: nat, start: nat, turns: seq<Turn>, first: nat)
    returns (ok: bool, used: nat, ghost trace: seq<RootStep>)
    requires inbox.Valid() && i < |inbox.content| && start <= |inbox.content[i]|
    modifies inbox`parts
    ensures inbox.Valid() && inbox.Contents() == RootExec(old(inbox.Contents()), inbox.content, trace)
    ensures Only(old(inbox.Contents()), inbox.Contents(), i)
    ensures ok && start < |inbox.content[i]| ==> inbox.parts[i].committed == |inbox.content[i]|
    ensures start == |inbox.content[i]| ==> inbox.parts == old(inbox.parts)
    ensures Honest(turns) && old(Matches(inbox.parts[i], inbox.content[i])) ==>
              Matches(inbox.parts[i], inbox.content[i])
    ensures AllSmooth(turns) && Open(inbox.Contents(), attempt) ==>
              (ok <==> old(Resumable(inbox.parts[i], inbox.content[i], start)))
  {
    used, trace := first, [];
    ghost var before, content := inbox.Contents(), inbox.content[i];
    OnlyItself(before, inbox.content, i);
    var offset := start;
    while offset < |inbox.content[i]|
      invariant inbox.Valid() && inbox.Contents() == RootExec(before, inbox.content, trace)
      invariant Only(before, inbox.Contents(), i)
      invariant start <= offset <= |content|
      invariant if offset == start then inbox.parts == before.parts else inbox.parts[i].committed == offset
      invariant Honest(turns) && Matches(before.parts[i], content) ==> Matches(inbox.parts[i], content)
      invariant AllSmooth(turns) && Open(inbox.Contents(), attempt) ==>
                  (Resumable(before.parts[i], content, start) <==> Resumable(inbox.parts[i], content, offset))
      decreases |content| - offset
    {
      ghost var here := inbox.Contents();
      ghost var part;
      ok, part := CopyChunk(inbox, attempt, i, offset, TurnAt(turns, used));
      OnlyTrans(before, here, inbox.Contents(), i);
      RootConcat(before, inbox.content, trace, part);
      used, trace := used + 1, trace + part;
      if !ok { return; }
      offset := Min(offset + CHUNK, |inbox.content[i]|);
    }
    ok := true;
  }

  /** The root's offsets, one a part and each within its part, or an error. */
  method ValidateOffsets(sizes: seq<nat>, offsets: seq<nat>) returns (ok: bool)
    ensures ok <==> |offsets| == |sizes| && forall i :: 0 <= i < |sizes| ==> offsets[i] <= sizes[i]
  {
    if |offsets| != |sizes| { return false; }
    for i := 0 to |sizes|
      invariant forall k :: 0 <= k < i ==> offsets[k] <= sizes[k]
    {
      if offsets[i] > sizes[i] { return false; }
    }
    ok := true;
  }

  /** A copy from `start` leaves the whole part, as described. */
  predicate Completes(p: Part, content: Bytes, start: nat) {
    && Matches(p, content) && Resumable(p, content, start)
    && (start == |content| ==> p.committed == |content|)
  }

  /** What relaying part `i` from `start` has come to, if nothing went wrong. */
  ghost predicate Relayed(before: Part, after: Part, content: Bytes, start: nat) {
    && Resumable(before, content, start)
    && (Matches(after, content) <==> Matches(before, content))
    && (after.committed == |content| <==> start < |content| || before.committed == |content|)
  }

  /** All parts, each from its offset. */
  method RelayParts(inbox: Inbox, attempt: AttemptId, offsets: seq<nat>, turns: seq<Turn>)
    returns (ok: bool, ghost trace: seq<RootStep>)
    requires inbox.Valid() && |offsets| == |inbox.content|
    requires forall i :: 0 <= i < |offsets| ==> offsets[i] <= |inbox.content[i]|
    modifies inbox`parts
    ensures inbox.Valid() && inbox.Contents() == RootExec(old(inbox.Contents()), inbox.content, trace)
    ensures GrownAll(old(inbox.parts), inbox.parts)
    ensures Honest(turns) && old(AllMatch(inbox.Contents(), inbox.content)) ==>
              AllMatch(inbox.Contents(), inbox.content)
    ensures AllSmooth(turns) && Open(inbox.Contents(), attempt) ==>
              (ok <==> forall i :: 0 <= i < |offsets| ==> Resumable(old(inbox.parts)[i], inbox.content[i], offsets[i]))
    ensures AllSmooth(turns) && Open(inbox.Contents(), attempt) && ok ==>
              forall i :: 0 <= i < |offsets| ==>
                Relayed(old(inbox.parts)[i], inbox.parts[i], inbox.content[i], offsets[i])
  {
    ghost var before := inbox.Contents();
    trace := [];
    var i, used := 0, 0;
    while i < |inbox.content|
      invariant 0 <= i <= |inbox.content|
      invariant inbox.Valid() && inbox.Contents() == RootExec(before, inbox.content, trace)
      invariant GrownAll(before.parts, inbox.parts) && forall k :: i <= k < |offsets| ==>
                  inbox.parts[k] == before.parts[k]
      invariant Honest(turns) && AllMatch(before, inbox.content) ==> AllMatch(inbox.Contents(), inbox.content)
      invariant AllSmooth(turns) && Open(inbox.Contents(), attempt) ==>
                  forall k :: 0 <= k < i ==> Relayed(before.parts[k], inbox.parts[k], inbox.content[k], offsets[k])
    {
      ghost var here := inbox.Contents();
      ghost var part;
      ok, used, part := RelayPart(inbox, attempt, i, offsets[i], turns, used);
      RootConcat(before, inbox.content, trace, part);
      trace := trace + part;
      OnlyGrows(before.parts, here, inbox.Contents(), i);
      if !ok { return; }
      MatchesOn(here.parts[i], inbox.parts[i], inbox.content[i]);
      i := i + 1;
    }
    ok := true;
  }

  lemma OnlyGrows(first: seq<Part>, before: Root, after: Root, i: nat)
    requires GrownAll(first, before.parts) && Only(before, after, i)
    ensures GrownAll(first, after.parts)
  {
    forall k | 0 <= k < |first| ensures Grown(first[k], after.parts[k]) {
      if k == i { GrownTrans(first[i], before.parts[i], after.parts[i]); }
    }
  }

  // The whole transfer

  /** A call that goes well, one that never arrives, and one that is carried out but whose answer is lost. */
  datatype Fate = Fine | Unsent | Unheard

  /** The offsets the root reports: those it has stored, or anything. */
  datatype Report = AsStored | Claimed(offsets: seq<nat>)

  datatype Conditions = Conditions(begin: Fate, admitted: bool, report: Report, turns: seq<Turn>, finish: Fate)

  predicate FaultFree(c: Conditions) {
    c.begin.Fine? && AllSmooth(c.turns) && c.finish.Fine?
  }

  function ReportedOffsets(report: Report, stored: seq<nat>): seq<nat> {
    if report.AsStored? then stored else report.offsets
  }

  /**
   When a fault-free transfer succeeds: the attempt has not been given up, and the root has the package
   already, or it is neither evicting it nor receiving it for another attempt, admits this one, and every
   part can be completed from the offset reported for it.
   */
  ghost predicate CanTransfer(r: Root, content: seq<Bytes>, attempt: AttemptId, admitted: bool, report: Report) {
    && attempt !in r.removed
    && (|| r.state.Available?
        || (&& (r.state.Absent? || r.state == Receiving(attempt)) && admitted
            && var offsets := ReportedOffsets(report, Offsets(r.parts));
               |offsets| == |content| == |r.parts| &&
               forall i :: 0 <= i < |content| ==> Completes(r.parts[i], content[i], offsets[i])))
  }

  /**
   A new attempt gets through, from what the root has stored, exactly if the root has the package or has
   nothing of it and admits the attempt: not while it is receiving for another one or evicting.
   */
  lemma NewAttemptTransfers(r: Root, content: seq<Bytes>, attempt: AttemptId, admitted: bool)
    requires ValidRoot(r, content) && r.state != Receiving(attempt) && attempt !in r.removed
    ensures CanTransfer(r, content, attempt, admitted, AsStored) <==>
              r.state.Available? || (r.state.Absent? && admitted)
  {
    if r.state.Absent? {
      forall i | 0 <= i < |content| ensures Completes(r.parts[i], content[i], Offsets(r.parts)[i]) {
        assert r.parts[i] == Part([], 0);
      }
    }
  }

  /** The same attempt taken up again gets through exactly if it may go on and what it has stored is right. */
  lemma SameAttemptResumes(r: Root, content: seq<Bytes>, attempt: AttemptId, admitted: bool)
    requires ValidRoot(r, content) && r.state == Receiving(attempt)
    ensures CanTransfer(r, content, attempt, admitted, AsStored) <==>
              attempt !in r.removed && admitted && AllMatch(r, content)
  {
    forall i | 0 <= i < |content|
      ensures Completes(r.parts[i], content[i], Offsets(r.parts)[i]) <==> Matches(r.parts[i], content[i])
    {
      assert ValidPart(r.parts[i], content[i]);
    }
  }

  lemma FinishExactly(before: Root, after: Root, content: seq<Bytes>, offsets: seq<nat>)
    requires ValidRoot(before, content) && ValidRoot(after, content) && |offsets| == |content|
    requires forall i :: 0 <= i < |offsets| ==> Relayed(before.parts[i], after.parts[i], content[i], offsets[i])
    ensures Complete(after, content) <==>
              forall i :: 0 <= i < |content| ==> Completes(before.parts[i], content[i], offsets[i])
  {
    forall i | 0 <= i < |content|
      ensures Completes(before.parts[i], content[i], offsets[i]) <==>
              after.parts[i].committed == |content[i]| && after.parts[i].file == content[i]
    {
      assert Relayed(before.parts[i], after.parts[i], content[i], offsets[i]);
      WholeMatches(after.parts[i], content[i]);
    }
  }

  /**
   One transfer under any conditions. If it succeeds the root has published exactly the bytes the
   descriptors describe, whatever the source answered and the root reported. If it fails, nothing final
   is lost. Without a fault it succeeds exactly when it can.
   */
  method Transfer(inbox: Inbox, attempt: AttemptId, c: Conditions)
    returns (ok: bool, began: bool, ghost trace: seq<RootStep>)
    requires inbox.Valid()
    modifies inbox`parts, inbox`state
    ensures inbox.Valid() && inbox.Contents() == RootExec(old(inbox.Contents()), inbox.content, trace)
    ensures GrownAll(old(inbox.parts), inbox.parts)
    ensures ok ==> inbox.state.Available? && Published(inbox.Contents(), inbox.content)
    ensures old(inbox.state.Available?) ==> inbox.Contents() == old(inbox.Contents())
    ensures ok ==> c.begin.Fine? && (began ==> c.finish.Fine?)
    ensures began ==> inbox.state == Receiving(attempt) || inbox.state == Available(attempt)
    ensures !began && !c.begin.Unheard? ==> inbox.Contents() == old(inbox.Contents())
    ensures began && c.finish.Unsent? ==> inbox.state == Receiving(attempt)
    ensures began <==> c.begin.Fine? && BegunRoot(old(inbox.Contents()), attempt, c.admitted).1.Started?
    ensures Honest(c.turns) && old(AllMatch(inbox.Contents(), inbox.content)) ==>
              AllMatch(inbox.Contents(), inbox.content)
    ensures FaultFree(c) ==> (ok <==> old(CanTransfer(inbox.Contents(), inbox.content, attempt, c.admitted, c.report)))
    ensures c.begin.Unheard? ==>
              !ok && inbox.Contents() == BegunRoot(old(inbox.Contents()), attempt, c.admitted).0
  {
    ghost var before, content := inbox.Contents(), inbox.content;
    GrownItself(before, content);
    trace := [];
    if c.begin.Unsent? { return false, false, trace; }
    var begun := inbox.BeginPackage(attempt, c.admitted);
    trace := [Begin(attempt, c.admitted)];
    RootSingle(before, content, trace[0]);
    if c.begin.Unheard? || begun.Conflict? || begun.Ended? || begun.Refused? { return false, false, trace; }
    if begun.AlreadyAvailable? { return true, false, trace; }
    began := true;
    var offsets := ReportedOffsets(c.report, begun.offsets);
    var sizes := seq(|inbox.content|, i requires 0 <= i < |inbox.content| => |inbox.content[i]|);
    ok := ValidateOffsets(sizes, offsets);
    if !ok {
      assert !CanTransfer(before, content, attempt, c.admitted, c.report);
      return;
    }
    ghost var started, part := inbox.Contents(), [];
    ok, part := RelayParts(inbox, attempt, offsets, c.turns);
    RootConcat(before, content, trace, part);
    trace := trace + part;
    if !ok || c.finish.Unsent? { return false, true, trace; }
    if FaultFree(c) { FinishExactly(started, inbox.Contents(), content, offsets); }
    ok := inbox.FinishPackage(attempt, false);
    RootSnoc(before, content, trace, Finish(attempt, false));
    trace := trace + [Finish(attempt, false)];
    ok := ok && c.finish.Fine?;
  }

  lemma GrownItself(r: Root, content: seq<Bytes>)
    requires ValidRoot(r, content)
    ensures GrownAll(r.parts, r.parts)
  {
    forall i | 0 <= i < |r.parts| ensures Grown(r.parts[i], r.parts[i]) { assert ValidPart(r.parts[i], content[i]); }
  }

  /** The exception is real: once the root has begun for one attempt, no other gets through. */
  lemma OtherAttemptBlocks(content: seq<Bytes>, first: AttemptId, second: AttemptId)
    requires first != second
    ensures var nothing := Root(Absent, Blank(|content|), {});
            && ValidRoot(nothing, content)
            && var r := RootExec(nothing, content, [Begin(first, true)]);
               r.state == Receiving(first) && !CanTransfer(r, content, second, true, AsStored)
  {
    RootSingle(Root(Absent, Blank(|content|), {}), content, Begin(first, true));
  }

  /**
   And the broker brings it about: the answer to its first request to begin is lost, it tries again with
   an attempt of its own, nothing goes wrong any more, and the transfer fails.
   */
  method LostAnswerBlocks(content: seq<Bytes>, first: AttemptId, second: AttemptId) returns (ok: bool, again: bool)
    requires first != second
    ensures !ok && !again
  {
    var inbox := new Inbox(content, Root(Absent, Blank(|content|), {}));
    var began;
    ghost var trace;
    ok, began, trace := Transfer(inbox, first, Conditions(Unheard, true, AsStored, [], Fine));
    again, began, trace := Transfer(inbox, second, Conditions(Fine, true, AsStored, [], Fine));
  }
}
