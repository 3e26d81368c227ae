/**
 The inbox in which a root peer receives a result package. An entry belongs to one attempt; an attempt
 whose removal is on record is refused from then on. Behind the durable offset of a part its bytes are
 final; a write may tear or fail before it is committed; only a complete package whose every part is as
 described becomes available. A part's descriptor is represented by the bytes it describes.
 */
module ResultInbox {
  newtype Byte = b: int | 0 <= b < 256
  type Bytes = seq<Byte>
  type AttemptId = nat

  const CHUNK := 131072

  datatype Result<T> = Ok(value: T) | Err

  /** A part's file, of which the first `committed` bytes are final and the rest is debris. */
  datatype Part = Part(file: Bytes, committed: nat)

  /** `Tombstone` is a package being evicted, of which the files may already be gone. */
  datatype State =
    | Absent | Receiving(attempt: AttemptId) | Available(attempt: AttemptId) | Tombstone(attempt: AttemptId)

  /** `removed` are the attempts with a receipt: their removal has been decided, whether or not it is done. */
  datatype Root = Root(state: State, parts: seq<Part>, removed: set<AttemptId>)

  /** What befalls one write: nothing, an error after some bytes, or an error just before the commit. */
  datatype Fault = NoFault | Torn(kept: nat) | Uncommitted

  function Min(a: int, b: int): int { if a < b then a else b }

  // One part

  predicate ValidPart(p: Part, content: Bytes) {
    && p.committed <= |p.file| <= |content|
    && (p.committed % CHUNK == 0 || p.committed == |content|)
  }

  /** The final bytes of a part, as far as they go, are those its descriptor describes. */
  predicate Matches(p: Part, content: Bytes) {
    p.committed <= |p.file| && p.committed <= |content| && p.file[..p.committed] == content[..p.committed]
  }

  /** Final bytes stay final. */
  predicate Grown(before: Part, after: Part) {
    && before.committed <= after.committed <= |after.file| && before.committed <= |before.file|
    && after.file[..before.committed] == before.file[..before.committed]
  }

  /** A write starts at a chunk boundary, is a whole chunk, and either continues the part or repeats it. */
  predicate Acceptable(p: Part, content: Bytes, offset: nat, data: Bytes) {
    && data != [] && offset % CHUNK == 0 && |data| == Min(CHUNK, |content| - offset)
    && (|| offset == p.committed
        || (offset + |data| <= p.committed <= |p.file| && p.file[offset..offset + |data|] == data))
  }

  /** The part after one write, and whether the write was acknowledged. */
  function PartWritten(p: Part, content: Bytes, offset: nat, data: Bytes, fault: Fault): (Part, bool)
    requires ValidPart(p, content)
  {
    var kept := p.file[..p.committed];
    if data == [] || offset % CHUNK != 0 || |data| != Min(CHUNK, |content| - offset) then (p, false)
    else if offset == p.committed then
      match fault
      case NoFault => (Part(kept + data, p.committed + |data|), true)
      case Torn(n) => (Part(kept + data[..Min(n, |data|)], p.committed), false)
      case Uncommitted => (Part(kept + data, p.committed), false)
    else if offset + |data| > p.committed then (p, false)
    else (Part(kept, p.committed), kept[offset..offset + |data|] == data && fault.NoFault?)
  }

  lemma SliceOfPrefix(s: Bytes, n: nat, a: nat, b: nat)
    requires a <= b <= n <= |s|
    ensures s[..n][a..b] == s[a..b]
  {
    forall k | 0 <= k < b - a ensures s[..n][a..b][k] == s[a..b][k] {}
  }

  /**
   Whatever befalls it, a write leaves earlier final bytes in place; it is acknowledged exactly when it
   is acceptable and nothing befalls it; and then exactly its bytes stand where it was aimed.
   */
  lemma PartWrittenKeeps(p: Part, content: Bytes, offset: nat, data: Bytes, fault: Fault)
    requires ValidPart(p, content)
    ensures var (q, ok) := PartWritten(p, content, offset, data, fault);
            && ValidPart(q, content) && Grown(p, q)
            && (ok <==> Acceptable(p, content, offset, data) && fault.NoFault?)
            && (!ok ==> q.committed == p.committed)
            && (ok ==> q.committed == if offset == p.committed then offset + |data| else p.committed)
            && (ok ==> offset + |data| <= q.committed && q.file[offset..offset + |data|] == data)
  {
    var (q, ok) := PartWritten(p, content, offset, data, fault);
    var kept := p.file[..p.committed];
    assert q.file[..p.committed] == kept || q == p;
    if offset < p.committed && offset + |data| <= p.committed {
      SliceOfPrefix(p.file, p.committed, offset, offset + |data|);
    }
  }

  lemma MatchesOn(p: Part, q: Part, content: Bytes)
    requires Grown(p, q) && q.committed <= |content|
    ensures Matches(q, content) ==> Matches(p, content)
    ensures Matches(p, content) && q.file[p.committed..q.committed] == content[p.committed..q.committed] ==>
              Matches(q, content)
  {
    if Matches(q, content) {
      assert q.file[..q.committed][..p.committed] == q.file[..p.committed];
      assert content[..q.committed][..p.committed] == content[..p.committed];
    }
    if Matches(p, content) && q.file[p.committed..q.committed] == content[p.committed..q.committed] {
      assert q.file[..q.committed] == q.file[..p.committed] + q.file[p.committed..q.committed];
      assert content[..q.committed] == content[..p.committed] + content[p.committed..q.committed];
    }
  }

  lemma GrownTrans(p: Part, q: Part, r: Part)
    requires Grown(p, q) && Grown(q, r)
    ensures Grown(p, r)
  {
    assert r.file[..p.committed] == r.file[..q.committed][..p.committed];
    assert q.file[..p.committed] == q.file[..q.committed][..p.committed];
  }

  lemma WholeMatches(p: Part, content: Bytes)
    requires ValidPart(p, content)
    ensures Matches(p, content) && p.committed == |content| <==> p == Part(content, |content|)
  {
    if Matches(p, content) && p.committed == |content| {
      assert p.file[..|content|] == p.file && content[..|content|] == content;
    }
  }

  // The entry

  function Blank(n: nat): seq<Part> {
    seq(n, _ => Part([], 0))
  }

  predicate Published(r: Root, content: seq<Bytes>) {
    |r.parts| == |content| && forall i :: 0 <= i < |r.parts| ==> r.parts[i] == Part(content[i], |content[i]|)
  }

  predicate AllMatch(r: Root, content: seq<Bytes>) {
    |r.parts| == |content| && forall i :: 0 <= i < |r.parts| ==> Matches(r.parts[i], content[i])
  }

  predicate ValidRoot(r: Root, content: seq<Bytes>) {
    && |r.parts| == |content|
    && (forall i :: 0 <= i < |r.parts| ==> ValidPart(r.parts[i], content[i]))
    && (r.state.Absent? ==> r.parts == Blank(|content|))
    && (r.state.Available? ==> Published(r, content))
  }

  function Files(parts: seq<Part>): seq<Bytes> {
    seq(|parts|, i requires 0 <= i < |parts| => parts[i].file)
  }

  lemma PublishedFiles(r: Root, content: seq<Bytes>)
    requires Published(r, content)
    ensures Files(r.parts) == content
  {
    forall i | 0 <= i < |content| ensures Files(r.parts)[i] == content[i] {}
  }

  predicate GrownAll(before: seq<Part>, after: seq<Part>) {
    |before| == |after| && forall i :: 0 <= i < |before| ==> Grown(before[i], after[i])
  }

  /** The attempt is the one the root is receiving for, and it has not been given up. */
  predicate Open(r: Root, attempt: AttemptId) {
    r.state == Receiving(attempt) && attempt !in r.removed
  }

  /**
   The answer to a request to begin: `Ended` to an attempt with a receipt or while the package is being
   evicted, `Conflict` while the root is receiving for another attempt or on other terms, `Refused` if
   the lease asked for is out of bounds or there is no room.
   */
  datatype Begun = Ended | Conflict | Refused | AlreadyAvailable | Started(offsets: seq<nat>)

  function Offsets(parts: seq<Part>): seq<nat> {
    seq(|parts|, i requires 0 <= i < |parts| => parts[i].committed)
  }

  /** `admitted` says that the lease asked for is acceptable and, for a new entry, that there is room. */
  function BegunRoot(r: Root, attempt: AttemptId, admitted: bool): (Root, Begun) {
    if attempt in r.removed then (r, Ended)
    else match r.state
      case Absent => if admitted then (r.(state := Receiving(attempt)), Started(Offsets(r.parts))) else (r, Refused)
      case Receiving(a) => (r, if a == attempt && admitted then Started(Offsets(r.parts)) else Conflict)
      case Available(_) => (r, AlreadyAvailable)
      case Tombstone(_) => (r, Ended)
  }

  function WrittenRoot(r: Root, content: seq<Bytes>, attempt: AttemptId, i: nat, offset: nat, data: Bytes, fault: Fault)
    : (Root, Result<nat>)
    requires ValidRoot(r, content)
  {
    if !Open(r, attempt) || i >= |content| then (r, Err)
    else
      var (part, ok) := PartWritten(r.parts[i], content[i], offset, data, fault);
      (r.(parts := r.parts[i := part]), if ok then Ok(part.committed) else Err)
  }

  predicate Complete(r: Root, content: seq<Bytes>) {
    |r.parts| == |content| &&
    forall i :: 0 <= i < |content| ==> r.parts[i].committed == |content[i]| && r.parts[i].file == content[i]
  }

  function FinishedRoot(r: Root, content: seq<Bytes>, attempt: AttemptId, fails: bool): (Root, bool) {
    if fails then (r, false)
    else if r.state == Available(attempt) then (r, true)
    else if Open(r, attempt) && Complete(r, content) then (r.(state := Available(attempt)), true)
    else (r, false)
  }

  /** The receipt comes first; the entry goes with its files, now or when the removal is taken up again. */
  function CancelledRoot(r: Root, attempt: AttemptId, completes: bool): Root {
    if r.state != Receiving(attempt) then r
    else if completes then Root(Absent, Blank(|r.parts|), r.removed + {attempt})
    else r.(removed := r.removed + {attempt})
  }

  /**
   `Reclaim` removes an entry whose lease is over; `Evict` begins and `Compact` ends the eviction of an
   available one, with which all receipts go; `Forget` drops the receipt of a removal that is done.
   */
  datatype RootStep =
    | Begin(attempt: AttemptId, admitted: bool)
    | Write(attempt: AttemptId, part: nat, offset: nat, data: Bytes, fault: Fault)
    | Finish(attempt: AttemptId, fails: bool)
    | Cancel(attempt: AttemptId, completes: bool)
    | Reclaim(completes: bool)
    | Evict
    | Compact
    | Forget(attempt: AttemptId)

  function RootNext(r: Root, content: seq<Bytes>, step: RootStep): Root
    requires ValidRoot(r, content)
  {
    match step
    case Begin(a, admitted) => BegunRoot(r, a, admitted).0
    case Write(a, i, offset, data, fault) => WrittenRoot(r, content, a, i, offset, data, fault).0
    case Finish(a, fails) => FinishedRoot(r, content, a, fails).0
    case Cancel(a, completes) => CancelledRoot(r, a, completes)
    case Reclaim(completes) => if r.state.Receiving? then CancelledRoot(r, r.state.attempt, completes) else r
    case Evict => if r.state.Available? then r.(state := Tombstone(r.state.attempt)) else r
    case Compact => if r.state.Tombstone? then Root(Absent, Blank(|r.parts|), {}) else r
    case Forget(a) => if r.state == Receiving(a) then r else r.(removed := r.removed - {a})
  }

  /** No step makes anything but the package itself available. */
  lemma RootKeeps(r: Root, content: seq<Bytes>, step: RootStep)
    requires ValidRoot(r, content)
    ensures ValidRoot(RootNext(r, content, step), content)
  {
    match step
    case Write(a, i, offset, data, fault) =>
      if Open(r, a) && i < |content| { PartWrittenKeeps(r.parts[i], content[i], offset, data, fault); }
    case _ =>
  }

  lemma RemovedIsFinal(r: Root, content: seq<Bytes>, attempt: AttemptId, step: RootStep)
    requires ValidRoot(r, content) && attempt in r.removed && r.state != Available(attempt)
    requires step != Forget(attempt) && !step.Compact?
    ensures var s := RootNext(r, content, step); attempt in s.removed && s.state != Available(attempt)
  {
  }

  /**
   What giving an attempt up comes to: its receipt, and once the removal is done a root that takes any
   other attempt; nobody else's entry is touched.
   */
  lemma CancelGivesUp(r: Root, content: seq<Bytes>, attempt: AttemptId, completes: bool, other: AttemptId)
    requires ValidRoot(r, content)
    ensures var s := CancelledRoot(r, attempt, completes);
            if r.state == Receiving(attempt)
            then && s.removed == r.removed + {attempt} && !Open(s, attempt)
                 && (completes && other !in s.removed ==> BegunRoot(s, other, true).1.Started?)
            else s == r
  {
  }

  /** Finishing again is answered as before and changes nothing. */
  lemma FinishTwice(r: Root, content: seq<Bytes>, attempt: AttemptId)
    requires ValidRoot(r, content) && FinishedRoot(r, content, attempt, false).1
    ensures var s := FinishedRoot(r, content, attempt, false).0;
            && s.state == Available(attempt) && FinishedRoot(s, content, attempt, false) == (s, true)
            && FinishedRoot(r, content, attempt, true) == (r, false)
  {
  }

  ghost function RootExec(r: Root, content: seq<Bytes>, steps: seq<RootStep>): (s: Root)
    requires ValidRoot(r, content)
    ensures ValidRoot(s, content)
  {
    if steps == [] then r
    else
      var before := RootExec(r, content, steps[..|steps| - 1]);
      RootKeeps(before, content, steps[|steps| - 1]);
      RootNext(before, content, steps[|steps| - 1])
  }

  /** However the run goes on, an attempt that was given up gets nothing done any more. */
  lemma {:induction false} RemovedForGood(r: Root, content: seq<Bytes>, attempt: AttemptId, steps: seq<RootStep>)
    requires ValidRoot(r, content) && attempt in r.removed && r.state != Available(attempt)
    requires forall k :: 0 <= k < |steps| ==> steps[k] != Forget(attempt) && !steps[k].Compact?
    ensures var s := RootExec(r, content, steps);
            && attempt in s.removed && s.state != Available(attempt)
            && (forall admitted :: BegunRoot(s, attempt, admitted) == (s, Ended))
            && (forall i, offset, data, fault :: WrittenRoot(s, content, attempt, i, offset, data, fault) == (s, Err))
            && (forall fails :: FinishedRoot(s, content, attempt, fails) == (s, false))
  {
    if steps != [] {
      RemovedForGood(r, content, attempt, steps[..|steps| - 1]);
      RemovedIsFinal(RootExec(r, content, steps[..|steps| - 1]), content, attempt, steps[|steps| - 1]);
    }
  }

  lemma RootSnoc(r: Root, content: seq<Bytes>, steps: seq<RootStep>, step: RootStep)
    requires ValidRoot(r, content)
    ensures RootExec(r, content, steps + [step]) == RootNext(RootExec(r, content, steps), content, step)
  {
    assert (steps + [step])[..|steps|] == steps;
  }

  lemma RootSingle(r: Root, content: seq<Bytes>, step: RootStep)
    requires ValidRoot(r, content)
    ensures RootExec(r, content, [step]) == RootNext(r, content, step)
  {
    assert [step] == [] + [step];
    RootSnoc(r, content, [], step);
  }

  /** The root's own housekeeping: each kind of entry can be taken away, and then the package begun anew. */
  lemma HousekeepingFrees(r: Root, content: seq<Bytes>, attempt: AttemptId)
    requires ValidRoot(r, content)
    ensures r.state.Receiving? ==>
              && r.state.attempt in RootExec(r, content, [Reclaim(false)]).removed
              && (attempt !in r.removed + {r.state.attempt} ==>
                   BegunRoot(RootExec(r, content, [Reclaim(true)]), attempt, true).1.Started?)
    ensures r.state.Available? && attempt !in r.removed ==>
              && BegunRoot(RootExec(r, content, [Evict]), attempt, true).1.Ended?
              && BegunRoot(RootExec(r, content, [Evict] + [Compact]), attempt, true).1.Started?
    ensures r.state.Absent? ==> BegunRoot(RootExec(r, content, [Forget(attempt)]), attempt, true).1.Started?
    ensures r.state == Receiving(attempt) ==> RootExec(r, content, [Forget(attempt)]) == r
  {
    RootSingle(r, content, Reclaim(false));
    RootSingle(r, content, Reclaim(true));
    RootSingle(r, content, Evict);
    RootSnoc(r, content, [Evict], Compact);
    RootSingle(r, content, Forget(attempt));
  }

  lemma {:induction false} RootConcat(r: Root, content: seq<Bytes>, a: seq<RootStep>, b: seq<RootStep>)
    requires ValidRoot(r, content)
    ensures RootExec(r, content, a + b) == RootExec(RootExec(r, content, a), content, b)
  {
    if b == [] {
      assert a + b == a;
    } else {
      RootConcat(r, content, a, b[..|b| - 1]);
      assert (a + b)[..|a + b| - 1] == a + b[..|b| - 1];
    }
  }

  class Inbox {
    const content: seq<Bytes>
    var state: State
    var parts: seq<Part>
    var removed: set<AttemptId>

    function Contents(): Root
      reads this
    {
      Root(state, parts, removed)
    }

    ghost predicate Valid()
      reads this
    {
      ValidRoot(Contents(), content)
    }

    constructor (content: seq<Bytes>, root: Root)
      requires ValidRoot(root, content)
      ensures Valid() && Contents() == root && this.content == content
    {
      this.content, state, parts, removed := content, root.state, root.parts, root.removed;
    }

    method BeginPackage(attempt: AttemptId, admitted: bool) returns (answer: Begun)
      requires Valid()
      modifies this`state
      ensures Valid() && (Contents(), answer) == BegunRoot(old(Contents()), attempt, admitted)
    {
      if attempt in removed || state.Tombstone? { return Ended; }
      if state.Available? { return AlreadyAvailable; }
      if state.Receiving? && (state.attempt != attempt || !admitted) { return Conflict; }
      if !admitted { return Refused; }
      state := Receiving(attempt);
      var offsets := [];
      for i := 0 to |parts|
        invariant offsets == Offsets(parts[..i])
      {
        offsets := offsets + [parts[i].committed];
      }
      assert parts[..|parts|] == parts;
      answer := Started(offsets);
    }

    method WritePart(attempt: AttemptId, i: nat, offset: nat, data: Bytes, fault: Fault) returns (r: Result<nat>)
      requires Valid()
      modifies this`parts
      ensures Valid()
      ensures (Contents(), r) == WrittenRoot(old(Contents()), content, attempt, i, offset, data, fault)
    {
      if state != Receiving(attempt) || attempt in removed || i >= |content| { return Err; }
      var p, size := parts[i], |content[i]|;
      PartWrittenKeeps(p, content[i], offset, data, fault);
      if |data| == 0 || offset % CHUNK != 0 || |data| != Min(CHUNK, size - offset) || offset > p.committed
         || (offset < p.committed && offset + |data| > p.committed)
      {
        assert parts == parts[i := p];
        return Err;
      }
      var kept := p.file[..p.committed];
      parts := parts[i := Part(kept, p.committed)];
      if offset < p.committed {
        if kept[offset..offset + |data|] != data || !fault.NoFault? { return Err; }
      } else {
        var landed := match fault case NoFault => |data| case Torn(n) => Min(n, |data|) case Uncommitted => |data|;
        assert data[..|data|] == data;
        parts := parts[i := Part(kept + data[..landed], p.committed)];
        assert parts == old(parts)[i := parts[i]];
        if !fault.NoFault? { return Err; }
        parts := parts[i := Part(kept + data, p.committed + |data|)];
      }
      assert parts == old(parts)[i := parts[i]];
      r := Ok(parts[i].committed);
    }

    /** Publication: every part is complete and hashes to its descriptor. */
    method FinishPackage(attempt: AttemptId, fails: bool) returns (ok: bool)
      requires Valid()
      modifies this`state
      ensures Valid() && (Contents(), ok) == FinishedRoot(old(Contents()), content, attempt, fails)
    {
      if fails || state.Absent? || state.attempt != attempt { return false; }
      if state.Available? { return true; }
      if state.Tombstone? || attempt in removed { return false; }
      var i := 0;
      while i < |parts|
        modifies {}
        invariant 0 <= i <= |parts|
        invariant forall k :: 0 <= k < i ==> parts[k].committed == |content[k]| && parts[k].file == content[k]
      {
        if parts[i].committed != |content[i]| || parts[i].file != content[i] { return false; }
        i := i + 1;
      }
      state := Available(attempt);
      ok := true;
    }

    method CancelPackage(attempt: AttemptId, completes: bool)
      requires Valid()
      modifies this
      ensures Valid() && Contents() == CancelledRoot(old(Contents()), attempt, completes)
    {
      if state != Receiving(attempt) { return; }
      removed := removed + {attempt};
      if !completes { return; }
      state, parts := Absent, Blank(|parts|);
    }
  }
}
