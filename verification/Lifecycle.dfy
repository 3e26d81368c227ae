/**
 The worker lifecycle pages a peer sends its broker: how one page is chosen from a listing, what the
 broker checks before it applies one, and what the stored cursor then promises, over every run of
 concurrent worker changes, reconnections and late deliveries.
 */
module Lifecycle {
  type Worker = nat

  const MAX_REVISION := 0x7FFF_FFFF_FFFF_FFFF
  const PAGE := 32

  /** `data` stands for the phase, the failure code and the thread and turn identities. */
  datatype Record = Record(revision: nat, data: nat)
  datatype Snapshot = Snapshot(worker: Worker, record: Record)
  datatype Page = Page(base: nat, through: nat, complete: bool, workers: seq<Snapshot>)
  datatype Result<T> = Ok(value: T) | Err

  // One page

  function Revision(workers: seq<Snapshot>, i: nat): nat
    requires i < |workers|
  {
    workers[i].record.revision
  }

  /** Entry `i` lies past the base, within reach, above every earlier entry and is no repeat of one. */
  predicate Entry(workers: seq<Snapshot>, base: nat, through: nat, i: nat)
    requires i < |workers|
  {
    && base < Revision(workers, i) <= through
    && (forall k :: 0 <= k < i ==>
         Revision(workers, k) < Revision(workers, i) && workers[k].worker != workers[i].worker)
  }

  predicate ValidPage(p: Page) {
    && p.base <= p.through <= MAX_REVISION
    && |p.workers| <= PAGE
    && (forall i: nat :: i < |p.workers| ==> Entry(p.workers, p.base, p.through, i))
    && (p.complete || (|p.workers| == PAGE && Revision(p.workers, PAGE - 1) < p.through))
  }

  /** The cursor a page leaves behind. */
  function Applied(p: Page): nat
    requires ValidPage(p)
  {
    if p.complete then p.through else Revision(p.workers, PAGE - 1)
  }

  /** A page moves the cursor forward, and never past what the sender aimed for. */
  lemma AppliedForward(p: Page)
    requires ValidPage(p)
    ensures p.base <= Applied(p) <= p.through
    ensures p.base < p.through ==> p.base < Applied(p)
  {
    if !p.complete { assert Entry(p.workers, p.base, p.through, PAGE - 1); }
  }

  /** The receiver's reading of a page, one worker at a time. */
  method Validate(p: Page) returns (ok: bool)
    ensures ok <==> ValidPage(p)
  {
    if p.base > MAX_REVISION || p.through > MAX_REVISION || p.through < p.base || |p.workers| > PAGE {
      return false;
    }
    if !p.complete && (|p.workers| != PAGE || p.base == p.through) {
      assert ValidPage(p) ==> Entry(p.workers, p.base, p.through, 0);
      return false;
    }
    var previous, seen, i := p.base, {}, 0;
    while i < |p.workers|
      invariant i <= |p.workers|
      invariant forall k: nat :: k < i ==> Entry(p.workers, p.base, p.through, k)
      invariant previous == if i == 0 then p.base else Revision(p.workers, i - 1)
      invariant seen == set k | 0 <= k < i :: p.workers[k].worker
    {
      var snapshot := p.workers[i];
      if snapshot.record.revision <= previous || snapshot.record.revision > p.through || snapshot.worker in seen {
        assert !Entry(p.workers, p.base, p.through, i);
        return false;
      }
      EntryNext(p.workers, p.base, p.through, i);
      seen := seen + {snapshot.worker};
      previous := snapshot.record.revision;
      i := i + 1;
    }
    if |p.workers| > 0 { assert Entry(p.workers, p.base, p.through, |p.workers| - 1); }
    ok := p.complete || previous != p.through;
  }

  lemma EntryNext(workers: seq<Snapshot>, base: nat, through: nat, i: nat)
    requires i < |workers| && forall k: nat :: k < i ==> Entry(workers, base, through, k)
    requires (if i == 0 then base else Revision(workers, i - 1)) < Revision(workers, i) <= through
    requires forall k :: 0 <= k < i ==> workers[k].worker != workers[i].worker
    ensures Entry(workers, base, through, i)
  {
    if i > 0 { assert Entry(workers, base, through, i - 1); }
  }

  // Choosing a page

  /** What a peer's store promises of a listing: one row a worker, no two with one revision. */
  predicate Sound(listing: seq<Snapshot>) {
    && (forall i: nat :: i < |listing| ==> 0 < Revision(listing, i) <= MAX_REVISION)
    && Distinct(listing)
  }

  predicate Distinct(listing: seq<Snapshot>) {
    forall i, j :: 0 <= i < j < |listing| ==> Apart(listing[i], listing[j])
  }

  predicate Apart(a: Snapshot, b: Snapshot) {
    a.worker != b.worker && a.record.revision != b.record.revision
  }

  predicate Ordered(workers: seq<Snapshot>) {
    forall i: nat, j: nat :: i < j < |workers| ==> Revision(workers, i) <= Revision(workers, j)
  }

  method InsertByRevision(sorted: seq<Snapshot>, x: Snapshot) returns (r: seq<Snapshot>)
    requires Ordered(sorted)
    ensures Ordered(r) && multiset(r) == multiset(sorted) + multiset{x}
    ensures Distinct(sorted) && (forall y :: y in sorted ==> Apart(y, x)) ==> Distinct(r)
  {
    var i := |sorted|;
    while i > 0 && Revision(sorted, i - 1) > x.record.revision
      invariant 0 <= i <= |sorted|
      invariant i < |sorted| ==> Revision(sorted, i) > x.record.revision
    {
      i := i - 1;
    }
    r := Inserted(sorted, i, x);
    InsertedOrdered(sorted, i, x);
    if Distinct(sorted) && (forall y :: y in sorted ==> Apart(y, x)) { InsertedDistinct(sorted, i, x); }
  }

  function Inserted(s: seq<Snapshot>, i: nat, x: Snapshot): (r: seq<Snapshot>)
    requires i <= |s|
    ensures |r| == |s| + 1 && r[i] == x
    ensures forall k :: 0 <= k < i ==> r[k] == s[k]
    ensures forall k :: i < k < |r| ==> r[k] == s[k - 1]
    ensures multiset(r) == multiset(s) + multiset{x}
  {
    assert s == s[..i] + s[i..];
    s[..i] + [x] + s[i..]
  }

  lemma InsertedOrdered(s: seq<Snapshot>, i: nat, x: Snapshot)
    requires i <= |s| && Ordered(s)
    requires i > 0 ==> Revision(s, i - 1) <= x.record.revision
    requires i < |s| ==> x.record.revision <= Revision(s, i)
    ensures Ordered(Inserted(s, i, x))
  {
    var r := Inserted(s, i, x);
    forall a: nat, b: nat | a < b < |r| ensures Revision(r, a) <= Revision(r, b) {
      var a0, b0 := if a > i then a - 1 else a, if b > i then b - 1 else b;
      if a < i && b == i && a < i - 1 { assert Revision(s, a) <= Revision(s, i - 1); }
      if a == i && i < b0 { assert Revision(s, i) <= Revision(s, b0); }
      if a != i && b != i { assert Revision(s, a0) <= Revision(s, b0); }
    }
  }

  lemma InsertedDistinct(s: seq<Snapshot>, i: nat, x: Snapshot)
    requires i <= |s| && Distinct(s) && forall y :: y in s ==> Apart(y, x)
    ensures Distinct(Inserted(s, i, x))
  {
    var r := Inserted(s, i, x);
    forall a, b | 0 <= a < b < |r| ensures Apart(r[a], r[b]) {
      var a0, b0 := if a > i then a - 1 else a, if b > i then b - 1 else b;
      if a == i {
        assert s[b0] in s;
      } else if b == i {
        assert s[a0] in s;
      } else {
        assert Apart(s[a0], s[b0]);
      }
    }
  }

  method SortByRevision(s: seq<Snapshot>) returns (r: seq<Snapshot>)
    ensures Ordered(r) && multiset(r) == multiset(s)
    ensures Distinct(s) ==> Distinct(r)
  {
    r := [];
    for i := 0 to |s|
      invariant Ordered(r) && multiset(r) == multiset(s[..i])
      invariant Distinct(s) ==> Distinct(r)
    {
      if Distinct(s) {
        forall y | y in r ensures Apart(y, s[i]) { assert y in multiset(r) && y in s[..i]; }
      }
      r := InsertByRevision(r, s[i]);
      assert s[..i + 1] == s[..i] + [s[i]];
    }
    assert s[..|s|] == s;
  }

  /** A page holds exactly the listed workers that changed after its base, up to where it applies. */
  ghost predicate Exact(p: Page, listing: seq<Snapshot>)
    requires ValidPage(p)
  {
    forall s :: s in p.workers <==> s in listing && p.base < s.record.revision <= Applied(p)
  }

  predicate Repeats(listing: seq<Snapshot>) {
    exists i, j :: 0 <= i < j < |listing| && listing[i].worker == listing[j].worker
  }

  /** The filter of a listing: the workers past the base and within reach, in listing order. */
  method Candidates(listing: seq<Snapshot>, base: nat, through: nat) returns (r: Result<seq<Snapshot>>)
    ensures r.Ok? <==> !Repeats(listing) && forall i: nat :: i < |listing| ==> 0 < Revision(listing, i) <= MAX_REVISION
    ensures r.Ok? ==> forall s :: s in r.value <==> s in listing && base < s.record.revision <= through
    ensures r.Ok? && Distinct(listing) ==> Distinct(r.value)
  {
    var candidates, seen := [], {};
    for i := 0 to |listing|
      invariant forall k: nat :: k < i ==> 0 < Revision(listing, k) <= MAX_REVISION
      invariant seen == set k | 0 <= k < i :: listing[k].worker
      invariant !Repeats(listing[..i])
      invariant forall s :: s in candidates <==> s in listing[..i] && base < s.record.revision <= through
      invariant Distinct(listing) ==> Distinct(candidates)
    {
      var snapshot := listing[i];
      if snapshot.record.revision == 0 || snapshot.record.revision > MAX_REVISION {
        assert Revision(listing, i) == snapshot.record.revision;
        return Err;
      }
      if snapshot.worker in seen { return Err; }
      seen := seen + {snapshot.worker};
      assert listing[..i + 1] == listing[..i] + [snapshot];
      if base < snapshot.record.revision <= through { candidates := candidates + [snapshot]; }
    }
    assert listing[..|listing|] == listing;
    r := Ok(candidates);
  }

  method NextPage(listing: seq<Snapshot>, base: nat, through: nat) returns (r: Result<Page>)
    ensures r.Ok? ==> ValidPage(r.value) && r.value.base == base && r.value.through == through
    ensures Repeats(listing) ==> r.Err?
    ensures Sound(listing) && base <= through <= MAX_REVISION ==> r.Ok? && Exact(r.value, listing)
  {
    var candidates := Candidates(listing, base, through);
    if candidates.Err? { return Err; }
    var sorted := SortByRevision(candidates.value);
    var complete := |sorted| <= PAGE;
    var page := Page(base, through, complete, if complete then sorted else sorted[..PAGE]);
    if Sound(listing) && base <= through <= MAX_REVISION {
      forall s ensures s in sorted <==> s in candidates.value { assert s in sorted <==> s in multiset(sorted); }
      PageValid(sorted, page);
      PageExact(sorted, page, listing);
    }
    var ok := Validate(page);
    r := if ok then Ok(page) else Err;
  }

  ghost predicate CutFrom(p: Page, sorted: seq<Snapshot>) {
    && p.base <= p.through <= MAX_REVISION
    && Ordered(sorted) && Distinct(sorted)
    && (forall s :: s in sorted ==> p.base < s.record.revision <= p.through)
    && p.complete == (|sorted| <= PAGE)
    && p.workers == if p.complete then sorted else sorted[..PAGE]
  }

  lemma PageValid(sorted: seq<Snapshot>, p: Page)
    requires CutFrom(p, sorted)
    ensures ValidPage(p)
  {
    forall i: nat | i < |p.workers| ensures Entry(p.workers, p.base, p.through, i) {
      assert sorted[i] in sorted;
      forall k | 0 <= k < i
        ensures Revision(p.workers, k) < Revision(p.workers, i) && p.workers[k].worker != p.workers[i].worker
      {
        assert Revision(sorted, k) <= Revision(sorted, i) && Apart(sorted[k], sorted[i]);
      }
    }
    if !p.complete {
      assert Revision(sorted, PAGE - 1) <= Revision(sorted, PAGE) && Apart(sorted[PAGE - 1], sorted[PAGE]);
      assert sorted[PAGE] in sorted;
    }
  }

  lemma PageExact(sorted: seq<Snapshot>, p: Page, listing: seq<Snapshot>)
    requires CutFrom(p, sorted) && ValidPage(p)
    requires forall s :: s in sorted <==> s in listing && p.base < s.record.revision <= p.through
    ensures Exact(p, listing)
  {
    forall k | 0 <= k < |p.workers| ensures sorted[k] in p.workers { assert p.workers[k] == sorted[k]; }
    forall s ensures s in p.workers <==> s in listing && p.base < s.record.revision <= Applied(p) {
      if s in p.workers {
        var i :| 0 <= i < |p.workers| && p.workers[i] == s;
        if !p.complete && i < PAGE - 1 { assert Revision(sorted, i) <= Revision(sorted, PAGE - 1); }
      } else if s in sorted && !p.complete {
        var i :| 0 <= i < |sorted| && sorted[i] == s;
        assert Revision(sorted, PAGE - 1) <= Revision(sorted, i) && Apart(sorted[PAGE - 1], sorted[i]);
      }
    }
  }
}
