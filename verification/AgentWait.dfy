/**
 Reading four streams page by page. Each wait reads, for every stream, what lies past the cursor it
 was given, returns at most as many items as it may, says whether more are left, and hands back a
 cursor for the next wait. Between waits items are appended and may also be removed.
 */
module AgentWait {
  datatype Row = Row(sequence: nat, item: nat)
  datatype Result<T> = Ok(value: T) | Err

  predicate Increasing(rows: seq<Row>) {
    forall i, j :: 0 <= i < j < |rows| ==> rows[i].sequence < rows[j].sequence
  }

  predicate Below(rows: seq<Row>, high: nat) {
    forall i :: 0 <= i < |rows| ==> 0 < rows[i].sequence <= high
  }

  /** The rows past `lo` up to `hi` whose sequence is not in `out`, in order. */
  function Keep(rows: seq<Row>, lo: nat, hi: nat, out: set<nat>): seq<Row> {
    if rows == [] then []
    else
      var last := rows[|rows| - 1];
      Keep(rows[..|rows| - 1], lo, hi, out) + (if lo < last.sequence <= hi && last.sequence !in out then [last] else [])
  }

  lemma {:induction false} KeepMembers(rows: seq<Row>, lo: nat, hi: nat, out: set<nat>)
    requires Increasing(rows)
    ensures Increasing(Keep(rows, lo, hi, out))
    ensures forall r :: r in Keep(rows, lo, hi, out) <==> r in rows && lo < r.sequence <= hi && r.sequence !in out
  {
    if rows != [] {
      var init, last := rows[..|rows| - 1], rows[|rows| - 1];
      KeepMembers(init, lo, hi, out);
      assert rows == init + [last];
      var kept := Keep(init, lo, hi, out);
      forall i | 0 <= i < |kept| ensures kept[i].sequence < last.sequence { assert kept[i] in init; }
    }
  }

  lemma {:induction false} KeepNothing(rows: seq<Row>, lo: nat, hi: nat, out: set<nat>)
    requires forall i :: 0 <= i < |rows| ==> rows[i].sequence <= lo
    ensures Keep(rows, lo, hi, out) == []
  {
    if rows != [] { KeepNothing(rows[..|rows| - 1], lo, hi, out); }
  }

  /** Reading to `mid` and then on from there is reading straight through. */
  lemma {:induction false} KeepSplit(rows: seq<Row>, lo: nat, mid: nat, hi: nat, out: set<nat>)
    requires Increasing(rows) && lo <= mid <= hi
    ensures Keep(rows, lo, hi, out) == Keep(rows, lo, mid, out) + Keep(rows, mid, hi, out)
  {
    if rows != [] {
      var init, last := rows[..|rows| - 1], rows[|rows| - 1];
      KeepSplit(init, lo, mid, hi, out);
      if last.sequence <= mid { KeepNothing(init, mid, hi, out); }
    }
  }

  lemma {:induction false} KeepAgrees(rows: seq<Row>, lo: nat, hi: nat, out: set<nat>, other: set<nat>)
    requires forall n :: lo < n <= hi ==> (n in out <==> n in other)
    ensures Keep(rows, lo, hi, out) == Keep(rows, lo, hi, other)
  {
    if rows != [] { KeepAgrees(rows[..|rows| - 1], lo, hi, out, other); }
  }

  function Take(rows: seq<Row>, n: nat): seq<Row> {
    if |rows| <= n then rows else rows[..n]
  }

  /** Where a page leaves the cursor. */
  function NextCursor(page: seq<Row>, cursor: nat): nat {
    if page == [] then cursor else page[|page| - 1].sequence
  }

  /** The first rows past a cursor are exactly those up to the last of them. */
  lemma TakeIsKeep(rows: seq<Row>, cursor: nat, high: nat, n: nat, out: set<nat>)
    requires Increasing(rows) && Below(rows, high) && cursor <= high
    ensures var page := Take(Keep(rows, cursor, high, out), n);
            var next := NextCursor(page, cursor);
            cursor <= next <= high && (page != [] ==> page == Keep(rows, cursor, next, out))
  {
    var all := Keep(rows, cursor, high, out);
    var page := Take(all, n);
    if page != [] {
      KeepMembers(rows, cursor, high, out);
      assert page[|page| - 1] == all[|page| - 1] && all[|page| - 1] in all;
      KeepUpTo(rows, cursor, high, |page|, out);
    }
  }

  lemma KeepUpTo(rows: seq<Row>, lo: nat, hi: nat, n: nat, out: set<nat>)
    requires Increasing(rows) && 0 < n <= |Keep(rows, lo, hi, out)|
    requires lo <= Keep(rows, lo, hi, out)[n - 1].sequence <= hi
    ensures Keep(rows, lo, hi, out)[..n] == Keep(rows, lo, Keep(rows, lo, hi, out)[n - 1].sequence, out)
  {
    var all := Keep(rows, lo, hi, out);
    var at := all[n - 1].sequence;
    KeepSplit(rows, lo, at, hi, out);
    KeepMembers(rows, lo, hi, out);
    KeepMembers(rows, lo, at, out);
    KeepMembers(rows, at, hi, out);
    SplitPoint(all, Keep(rows, lo, at, out), Keep(rows, at, hi, out), n, at);
  }

  lemma SplitPoint(all: seq<Row>, left: seq<Row>, right: seq<Row>, n: nat, at: nat)
    requires Increasing(all) && all == left + right && 0 < n <= |all| && all[n - 1].sequence == at
    requires (forall r :: r in left ==> r.sequence <= at) && (forall r :: r in right ==> r.sequence > at)
    ensures |left| == n && all[..n] == left && all[n..] == right
  {
    forall k | 0 <= k < |all| ensures k < |left| <==> all[k].sequence <= at {
      if k < |left| { assert all[k] == left[k]; } else { assert all[k] == right[k - |left|]; }
    }
    if n < |all| { assert all[n - 1].sequence < all[n].sequence; }
  }

  // One read

  /** The store: the first `limit` rows past the cursor. */
  method ListAfter(rows: seq<Row>, high: nat, cursor: nat, limit: nat) returns (r: Result<seq<Row>>)
    requires Increasing(rows) && Below(rows, high)
    ensures r.Err? <==> cursor > high
    ensures r.Ok? ==> r.value == Take(Keep(rows, cursor, high, {}), limit)
  {
    if cursor > high { return Err; }
    var got, i := [], 0;
    while i < |rows| && |got| < limit
      invariant 0 <= i <= |rows| && |got| <= limit
      invariant got == Keep(rows[..i], cursor, high, {})
    {
      assert rows[..i + 1][..i] == rows[..i];
      if rows[i].sequence > cursor { got := got + [rows[i]]; }
      i := i + 1;
    }
    KeepPrefix(rows, cursor, high, i);
    if i == |rows| { assert rows[..i] == rows; }
    r := Ok(got);
  }

  lemma {:induction false} KeepPrefix(rows: seq<Row>, lo: nat, hi: nat, n: nat)
    requires n <= |rows|
    ensures Keep(rows[..n], lo, hi, {}) <= Keep(rows, lo, hi, {})
  {
    if n < |rows| {
      assert rows[..|rows| - 1][..n] == rows[..n];
      KeepPrefix(rows[..|rows| - 1], lo, hi, n);
    } else {
      assert rows[..n] == rows;
    }
  }

  datatype Stream = Stream(rows: seq<Row>, high: nat)

  predicate ValidStream(s: Stream) {
    Increasing(s.rows) && Below(s.rows, s.high)
  }

  datatype Page = Page(rows: seq<Row>, more: bool, next: nat)

  /** The first rows past the cursor, whether any lies past those, and the cursor behind them. */
  ghost predicate IsPage(p: Page, s: Stream, cursor: nat, limit: nat) {
    && p.rows == Take(Keep(s.rows, cursor, s.high, {}), limit)
    && (p.more <==> exists x :: x in s.rows && x.sequence > cursor && x !in p.rows)
    && p.next == NextCursor(p.rows, cursor)
  }

  /** One more row than may be returned is read, to learn whether any is left. */
  method ReadStream(s: Stream, cursor: nat, limit: nat) returns (r: Result<Page>)
    requires ValidStream(s)
    ensures r.Err? <==> cursor > s.high
    ensures r.Ok? ==> IsPage(r.value, s, cursor, limit)
  {
    var got := ListAfter(s.rows, s.high, cursor, limit + 1);
    if got.Err? { return Err; }
    var more := |got.value| > limit;
    var page := if more then got.value[..limit] else got.value;
    MoreMeansLeft(s.rows, cursor, s.high, Keep(s.rows, cursor, s.high, {}), page, limit);
    r := Ok(Page(page, more, if page == [] then cursor else page[|page| - 1].sequence));
  }

  lemma MoreMeansLeft(rows: seq<Row>, cursor: nat, high: nat, all: seq<Row>, page: seq<Row>, limit: nat)
    requires Increasing(rows) && Below(rows, high) && all == Keep(rows, cursor, high, {}) && page == Take(all, limit)
    ensures |all| > limit <==> exists x :: x in rows && x.sequence > cursor && x !in page
  {
    KeepMembers(rows, cursor, high, {});
    if |all| > limit {
      assert all[limit] in rows;
      forall i | 0 <= i < limit ensures page[i] != all[limit] { assert page[i] == all[i]; }
    } else {
      forall x | x in rows && x.sequence > cursor ensures x in page {
        var i :| 0 <= i < |rows| && rows[i] == x;
      }
    }
  }

  /** A wait reads every stream; a cursor ahead of any of them fails the whole. */
  method ReadAgentWait(streams: seq<Stream>, cursors: seq<nat>, limits: seq<nat>) returns (r: Result<seq<Page>>)
    requires |streams| == |cursors| == |limits|
    requires forall i :: 0 <= i < |streams| ==> ValidStream(streams[i])
    ensures r.Err? <==> exists i :: 0 <= i < |streams| && cursors[i] > streams[i].high
    ensures r.Ok? ==> |r.value| == |streams| && forall i :: 0 <= i < |streams| ==>
              IsPage(r.value[i], streams[i], cursors[i], limits[i])
  {
    var pages: seq<Page> := [];
    for i := 0 to |streams|
      invariant |pages| == i
      invariant forall k :: 0 <= k < i ==> cursors[k] <= streams[k].high
      invariant forall k :: 0 <= k < i ==> IsPage(pages[k], streams[k], cursors[k], limits[k])
    {
      var page := ReadStream(streams[i], cursors[i], limits[i]);
      if page.Err? { return Err; }
      pages := pages + [page.value];
    }
    r := Ok(pages);
  }

  // Successive waits on one stream

  /**
   `log` is everything ever appended; `removed` the sequences no longer stored, `lost` those of them
   removed before the cursor had passed them; `got` everything the waits have returned so far.
   */
  datatype State = State(log: seq<Row>, high: nat, removed: set<nat>, lost: set<nat>, cursor: nat, got: seq<Row>)

  datatype Step = Append(gap: nat, item: nat) | Remove(sequence: nat) | Wait(limit: nat)

  const EMPTY := State([], 0, {}, {}, 0, [])

  function Stored(s: State): Stream {
    Stream(Keep(s.log, 0, s.high, s.removed), s.high)
  }

  function PageRows(s: State, limit: nat): seq<Row> {
    Take(Keep(Stored(s).rows, s.cursor, s.high, {}), limit)
  }

  function Next(s: State, step: Step): State {
    match step
    case Append(gap, item) =>
      var n := s.high + gap + 1;
      s.(log := s.log + [Row(n, item)], high := n)
    case Remove(n) =>
      var unread := n > s.cursor && n !in s.removed;
      if n <= s.high then s.(removed := s.removed + {n}, lost := if unread then s.lost + {n} else s.lost) else s
    case Wait(limit) =>
      var page := PageRows(s, limit);
      s.(cursor := NextCursor(page, s.cursor), got := s.got + page)
  }

  function Exec(steps: seq<Step>): State {
    if steps == [] then EMPTY else Next(Exec(steps[..|steps| - 1]), steps[|steps| - 1])
  }

  /** What the waits return, taken together: every row up to the cursor but the ones removed unread. */
  ghost predicate Inv(s: State) {
    && Increasing(s.log) && Below(s.log, s.high) && s.cursor <= s.high
    && s.lost <= s.removed
    && (forall n :: n in s.removed && n > s.cursor ==> n in s.lost)
    && (forall n :: n in s.removed ==> n <= s.high)
    && s.got == Keep(s.log, 0, s.cursor, s.lost)
  }

  lemma {:induction false} KeepTwice(rows: seq<Row>, lo: nat, mid: nat, hi: nat, out: set<nat>)
    requires lo <= mid
    ensures Keep(Keep(rows, lo, hi, out), mid, hi, {}) == Keep(rows, mid, hi, out)
  {
    if rows != [] {
      var init, last := rows[..|rows| - 1], rows[|rows| - 1];
      KeepTwice(init, lo, mid, hi, out);
      var kept := Keep(init, lo, hi, out);
      if lo < last.sequence <= hi && last.sequence !in out {
        assert (kept + [last])[..|kept|] == kept;
      } else {
        assert kept + [] == kept;
      }
    }
  }

  lemma IncreasingSnoc(rows: seq<Row>, high: nat, row: Row)
    requires Increasing(rows) && Below(rows, high) && row.sequence > high
    ensures Increasing(rows + [row]) && Below(rows + [row], row.sequence)
  {
    forall i, j | 0 <= i < j < |rows + [row]| ensures (rows + [row])[i].sequence < (rows + [row])[j].sequence {
      assert 0 < rows[i].sequence <= high;
    }
  }

  lemma AppendKeeps(s: State, gap: nat, item: nat)
    requires Inv(s)
    ensures Inv(Next(s, Append(gap, item)))
  {
    var n := Next(s, Append(gap, item));
    IncreasingSnoc(s.log, s.high, n.log[|s.log|]);
    assert n.log[..|s.log|] == s.log;
    assert Keep(n.log, 0, s.cursor, s.lost) == Keep(s.log, 0, s.cursor, s.lost) + [];
  }

  lemma WaitKeeps(s: State, limit: nat)
    requires Inv(s)
    ensures Inv(Next(s, Wait(limit)))
  {
    var page := PageRows(s, limit);
    KeepTwice(s.log, 0, s.cursor, s.high, s.removed);
    TakeIsKeep(s.log, s.cursor, s.high, limit, s.removed);
    if page != [] {
      var next := NextCursor(page, s.cursor);
      KeepAgrees(s.log, s.cursor, next, s.removed, s.lost);
      KeepSplit(s.log, 0, s.cursor, next, s.lost);
    }
  }

  lemma {:induction false} RunKeeps(steps: seq<Step>)
    ensures Inv(Exec(steps))
  {
    if steps != [] {
      var before := Exec(steps[..|steps| - 1]);
      RunKeeps(steps[..|steps| - 1]);
      match steps[|steps| - 1]
      case Append(gap, item) => AppendKeeps(before, gap, item);
      case Remove(n) => KeepAgrees(before.log, 0, before.cursor, before.lost, Next(before, Remove(n)).lost);
      case Wait(limit) => WaitKeeps(before, limit);
    }
  }

  ghost predicate Reachable(s: State) {
    exists steps :: s == Exec(steps)
  }

  lemma ReachableInv(s: State)
    requires Reachable(s)
    ensures Inv(s)
  {
    var steps :| s == Exec(steps);
    RunKeeps(steps);
  }

  /**
   Over every run, the waits have returned exactly the rows up to the cursor that were not removed
   before it passed them, in order and once each.
   */
  lemma ReturnedExactly(s: State)
    requires Reachable(s)
    ensures s.got == Keep(s.log, 0, s.cursor, s.lost) && Increasing(s.got)
  {
    ReachableInv(s);
    KeepMembers(s.log, 0, s.cursor, s.lost);
  }

  /**
   A row is among them exactly when the cursor has passed it and it was not removed unread; every
   stored row is there or still to come.
   */
  lemma ReturnedOrToCome(s: State, r: Row)
    requires Reachable(s)
    ensures r in s.got <==> r in s.log && r.sequence <= s.cursor && r.sequence !in s.lost
    ensures r in s.log && r.sequence !in s.removed ==> r in s.got || r.sequence > s.cursor
  {
    ReachableInv(s);
    KeepMembers(s.log, 0, s.cursor, s.lost);
  }

  /** The waits have missed nothing up to the cursor exactly when nothing up to it was removed unread. */
  lemma NothingMissedExactly(s: State)
    requires Reachable(s)
    ensures s.got == Keep(s.log, 0, s.cursor, {}) <==>
              forall r :: r in s.log && r.sequence in s.lost ==> r.sequence > s.cursor
  {
    ReachableInv(s);
    KeepMembers(s.log, 0, s.cursor, s.lost);
    KeepMembers(s.log, 0, s.cursor, {});
    if forall r :: r in s.log && r.sequence in s.lost ==> r.sequence > s.cursor {
      KeepSame(s.log, 0, s.cursor, s.lost);
    }
  }

  lemma {:induction false} KeepSame(rows: seq<Row>, lo: nat, hi: nat, out: set<nat>)
    requires forall r :: r in rows && r.sequence in out ==> r.sequence > hi
    ensures Keep(rows, lo, hi, out) == Keep(rows, lo, hi, {})
  {
    if rows != [] {
      assert rows[|rows| - 1] in rows;
      KeepSame(rows[..|rows| - 1], lo, hi, out);
    }
  }

  lemma KeepOne(first: Row, second: Row, hi: nat, out: set<nat>)
    requires 0 < first.sequence < second.sequence <= hi && first.sequence in out && second.sequence !in out
    ensures Keep([first, second], 0, hi, out) == [second] && Keep([second], 0, hi, {}) == [second]
  {
    assert [first, second][..1] == [first] && [first][..0] == [] && [second][..0] == [];
    assert Keep([first], 0, hi, out) == [];
  }

  /** An item can be missed: it is appended, removed, and the wait returns the one after it. */
  lemma MissedWhenRemoved()
    ensures var s := Next(Next(Next(Next(EMPTY, Append(0, 10)), Append(0, 20)), Remove(1)), Wait(1));
            s.log == [Row(1, 10), Row(2, 20)] && s.got == [Row(2, 20)]
  {
    var s := Next(Next(Next(EMPTY, Append(0, 10)), Append(0, 20)), Remove(1));
    assert s.log == [Row(1, 10), Row(2, 20)] && s.removed == {1};
    KeepOne(Row(1, 10), Row(2, 20), 2, {1});
  }

  // What each step brings about

  /** An item appended is the last one stored, under a sequence above every other. */
  lemma AppendTakes(s: State, gap: nat, item: nat)
    requires Inv(s)
    ensures var n := Next(s, Append(gap, item)); var row := Row(s.high + gap + 1, item);
            && n.log == s.log + [row] && n.high == row.sequence && n.got == s.got
            && Stored(n).rows == Stored(s).rows + [row]
  {
    var n := Next(s, Append(gap, item));
    IncreasingSnoc(s.log, s.high, n.log[|s.log|]);
    assert n.log[..|s.log|] == s.log;
    KeepReach(s.log, 0, s.high, n.high, s.removed);
  }

  lemma {:induction false} KeepReach(rows: seq<Row>, lo: nat, hi: nat, higher: nat, out: set<nat>)
    requires Below(rows, hi) && hi <= higher
    ensures Keep(rows, lo, higher, out) == Keep(rows, lo, hi, out)
  {
    if rows != [] { KeepReach(rows[..|rows| - 1], lo, hi, higher, out); }
  }

  /** A removal takes the row with that sequence from what is stored, and no other. */
  lemma RemoveTakes(s: State, n: nat, r: Row)
    requires Inv(s) && n <= s.high
    ensures r in Stored(Next(s, Remove(n))).rows <==> r in Stored(s).rows && r.sequence != n
    ensures Next(s, Remove(n)).log == s.log && Next(s, Remove(n)).got == s.got
  {
    KeepMembers(s.log, 0, s.high, s.removed);
    KeepMembers(s.log, 0, s.high, Next(s, Remove(n)).removed);
  }

  /** A wait returns something while anything stored lies past the cursor, and then the cursor moves. */
  lemma WaitProgress(s: State, limit: nat, r: Row)
    requires Inv(s) && limit > 0 && r in s.log && r.sequence > s.cursor && r.sequence !in s.removed
    ensures |Next(s, Wait(limit)).got| > |s.got| && Next(s, Wait(limit)).cursor > s.cursor
  {
    PageNotEmpty(s, limit, r);
    KeepTwice(s.log, 0, s.cursor, s.high, s.removed);
    KeepMembers(s.log, s.cursor, s.high, s.removed);
    var page := PageRows(s, limit);
    assert page[|page| - 1] in Keep(s.log, s.cursor, s.high, s.removed);
  }

  // The mailbox

  /** The mailbox of one agent: what a request's cursor has passed is deleted before the rest is read. */
  class Mailbox {
    var rows: seq<Row>
    var high: nat

    ghost predicate Valid()
      reads this
    {
      Increasing(rows) && Below(rows, high)
    }

    constructor ()
      ensures Valid() && rows == [] && high == 0
    {
      rows, high := [], 0;
    }

    method Deliver(item: nat)
      requires Valid()
      modifies this
      ensures Valid() && high == old(high) + 1 && rows == old(rows) + [Row(high, item)]
    {
      IncreasingSnoc(rows, high, Row(high + 1, item));
      high := high + 1;
      rows := rows + [Row(high, item)];
    }

    method ReadMailbox(cursor: nat, limit: nat) returns (r: Result<seq<Row>>)
      requires Valid()
      modifies this`rows
      ensures Valid()
      ensures r.Err? <==> cursor > high
      ensures r.Err? ==> rows == old(rows)
      ensures r.Ok? ==> rows == Keep(old(rows), cursor, high, {}) && r.value == Take(rows, limit)
    {
      if cursor > high { return Err; }
      KeepMembers(rows, cursor, high, {});
      KeepTwice(rows, cursor, cursor, high, {});
      if cursor == 0 { KeepAll(rows, high); } else { rows := Keep(rows, cursor, high, {}); }
      r := ListAfter(rows, high, cursor, limit);
    }
  }

  lemma {:induction false} KeepAll(rows: seq<Row>, high: nat)
    requires Below(rows, high)
    ensures Keep(rows, 0, high, {}) == rows
  {
    if rows != [] { KeepAll(rows[..|rows| - 1], high); }
  }

  /** `Read` is a request with a cursor; late and repeated ones carry an old cursor, and its answer may be lost. */
  datatype MailStep = Deliver(item: nat) | Read(cursor: nat, limit: nat, heard: bool)

  function UpTo(n: nat): (r: set<nat>)
    ensures forall k: nat :: k in r <==> k <= n
  {
    if n == 0 then {0} else UpTo(n - 1) + {n}
  }

  function Compacted(s: State, cursor: nat): State {
    s.(removed := s.removed + UpTo(cursor))
  }

  /** The agent asks with a cursor it was given, the latest or an earlier one, and uses only answers to the latest. */
  function MailNext(s: State, step: MailStep): State {
    match step
    case Deliver(item) => Next(s, Append(0, item))
    case Read(cursor, limit, heard) =>
      if cursor > s.cursor then s
      else if heard && cursor == s.cursor then Next(Compacted(s, cursor), Wait(limit))
      else Compacted(s, cursor)
  }

  function MailExec(steps: seq<MailStep>): State {
    if steps == [] then EMPTY else MailNext(MailExec(steps[..|steps| - 1]), steps[|steps| - 1])
  }

  /** Deleting up to the cursor is what the mailbox does to what it has stored. */
  lemma CompactionIsKeep(s: State, cursor: nat)
    requires Inv(s) && cursor <= s.cursor
    ensures Stored(Compacted(s, cursor)).rows == Keep(Stored(s).rows, cursor, s.high, {})
  {
    var out := Compacted(s, cursor).removed;
    KeepTwice(s.log, 0, cursor, s.high, s.removed);
    KeepSplit(s.log, 0, cursor, s.high, out);
    KeepAgrees(s.log, cursor, s.high, s.removed, out);
    KeepOut(s.log, 0, cursor, out);
  }

  lemma {:induction false} KeepOut(rows: seq<Row>, lo: nat, hi: nat, out: set<nat>)
    requires forall n :: lo < n <= hi ==> n in out
    ensures Keep(rows, lo, hi, out) == []
  {
    if rows != [] { KeepOut(rows[..|rows| - 1], lo, hi, out); }
  }

  /** In a mailbox nothing is removed unread. */
  ghost predicate MailInv(s: State) {
    Inv(s) && s.lost == {}
  }

  lemma {:induction false} MailKeeps(steps: seq<MailStep>)
    ensures MailInv(MailExec(steps))
  {
    if steps != [] {
      var before := MailExec(steps[..|steps| - 1]);
      MailKeeps(steps[..|steps| - 1]);
      match steps[|steps| - 1]
      case Deliver(item) => AppendKeeps(before, 0, item);
      case Read(cursor, limit, heard) =>
        if cursor <= before.cursor { WaitKeeps(Compacted(before, cursor), limit); }
    }
  }

  /**
   Whatever requests are repeated or late and whatever answers are lost, the agent has been given every
   message up to its cursor, in order and once each, and every later one is still stored.
   */
  lemma MailboxExactlyOnce(steps: seq<MailStep>)
    ensures var s := MailExec(steps);
            && s.got == Keep(s.log, 0, s.cursor, {}) && Increasing(s.got)
            && (forall r :: r in s.log ==> (r in s.got <==> r.sequence <= s.cursor))
            && (forall r :: r in s.log && r !in s.got ==> r in Stored(s).rows)
  {
    var s := MailExec(steps);
    MailKeeps(steps);
    KeepMembers(s.log, 0, s.cursor, {});
    KeepMembers(s.log, 0, s.high, s.removed);
  }

  function Items(rows: seq<Row>): seq<nat> {
    seq(|rows|, i requires 0 <= i < |rows| => rows[i].item)
  }

  /** The messages a run was asked to deliver, in order. */
  function Sent(steps: seq<MailStep>): seq<nat> {
    if steps == [] then []
    else
      var last := steps[|steps| - 1];
      Sent(steps[..|steps| - 1]) + (if last.Deliver? then [last.item] else [])
  }

  lemma {:induction false} LogIsSent(steps: seq<MailStep>)
    ensures Items(MailExec(steps).log) == Sent(steps)
  {
    if steps != [] { LogIsSent(steps[..|steps| - 1]); }
  }

  /** What the agent has been given is a beginning of what was sent, and its own cursor is where it ends. */
  lemma GivenIsSent(steps: seq<MailStep>)
    ensures var s := MailExec(steps); s.got <= s.log && Items(s.got) <= Items(s.log) == Sent(steps)
  {
    var s := MailExec(steps);
    LogIsSent(steps);
    MailKeeps(steps);
    KeepIsPrefix(s.log, s.cursor);
  }

  lemma {:induction false} KeepIsPrefix(rows: seq<Row>, hi: nat)
    requires Increasing(rows) && forall i :: 0 <= i < |rows| ==> rows[i].sequence > 0
    ensures Keep(rows, 0, hi, {}) <= rows
  {
    if rows != [] {
      var init, last := rows[..|rows| - 1], rows[|rows| - 1];
      KeepIsPrefix(init, hi);
      if last.sequence <= hi { KeepInside(init, hi); }
    }
  }

  lemma {:induction false} KeepInside(rows: seq<Row>, hi: nat)
    requires forall i :: 0 <= i < |rows| ==> 0 < rows[i].sequence <= hi
    ensures Keep(rows, 0, hi, {}) == rows
  {
    if rows != [] { KeepInside(rows[..|rows| - 1], hi); }
  }

  /** An answer to a request the agent has moved on from gives it nothing. */
  lemma StaleAnswerIgnored(s: State, cursor: nat, limit: nat, heard: bool)
    requires cursor != s.cursor
    ensures var n := MailNext(s, Read(cursor, limit, heard)); n.got == s.got && n.cursor == s.cursor
  {
  }

  lemma PageNotEmpty(s: State, limit: nat, r: Row)
    requires Inv(s) && limit > 0 && r in s.log && r.sequence > s.cursor && r.sequence !in s.removed
    ensures PageRows(s, limit) != []
  {
    KeepTwice(s.log, 0, s.cursor, s.high, s.removed);
    KeepMembers(s.log, s.cursor, s.high, s.removed);
    var i :| 0 <= i < |s.log| && s.log[i] == r;
    assert r in Keep(s.log, s.cursor, s.high, s.removed);
  }

  /** An answer that arrives brings something new while there is anything the agent has not been given. */
  lemma MailboxProgress(steps: seq<MailStep>, limit: nat, r: Row)
    requires limit > 0 && r in MailExec(steps).log && r !in MailExec(steps).got
    ensures var s := MailExec(steps); |MailNext(s, Read(s.cursor, limit, true)).got| > |s.got|
  {
    var s := MailExec(steps);
    MailKeeps(steps);
    KeepMembers(s.log, 0, s.cursor, {});
    PageNotEmpty(Compacted(s, s.cursor), limit, r);
  }
}
