/**
 The life of one result package after it is published: a relay copies it into the root's inbox, the
 broker records the delivery, tells the source, records its acknowledgement, tells it to let the payload
 go, and records that. The inbox takes requests from anybody at any time. Any number of relays may be
 under way with records they loaded long ago; a relay can die at any point; a message, once sent, can be
 carried out late and more than once.
 */
module RelayDelivery {
  import I = ResultInbox
  import T = ResultTransfer

  /** The broker's row. `compacted` marks one that has been deleted. */
  datatype Row = Row(delivered: bool, sequence: nat, ordinal: nat, acknowledged: bool, released: bool, compacted: bool)

  /** The source's side of the package. */
  datatype Outbox =
    | PublishPending | DeliveryPending | Delivered(sequence: nat) | ReleasePending(sequence: nat) | Removed

  /** Where a relay stands; `record` is what the store last told it. */
  datatype Stage =
    | Loaded | Transferred(ordinal: nat) | Marked
    | AckSent | AckReplied | Acknowledged
    | ReleaseSent | ReleaseReplied
  datatype Relay = Relay(stage: Stage, record: Row)

  type RelayId = nat

  datatype Option<T> = None | Some(value: T)

  /** `content` is what the manifest describes, `held` the files a relay last heard the root has made available. */
  datatype State = State(
    content: seq<I.Bytes>, root: I.Root, held: Option<seq<I.Bytes>>,
    row: Row, outbox: Outbox, payload: bool,
    acks: set<nat>, releases: set<nat>, relays: map<RelayId, Relay>)

  datatype RelayStep =
    | Load
    | Hear(ordinal: nat)
    | MarkDelivered(sequence: nat)
    | SendAck
    | ReceiveAck
    | MarkAcknowledged
    | SendRelease
    | ReceiveRelease
    | MarkReleased
    | Die

  datatype PeerStep =
    | AcceptMetadata
    | CarryOutAck(sequence: nat)
    | CarryOutRelease(sequence: nat)
    | DeletePayload
    | RemoveEntry
    | Inbox(step: I.RootStep)

  datatype Step = Run(id: RelayId, relay: RelayStep) | Peer(peer: PeerStep) | Crash | CompactRow

  function Published(content: seq<I.Bytes>): State {
    State(content, I.Root(I.Absent, I.Blank(|content|), {}), None,
          Row(false, 0, 0, false, false, false), PublishPending, true, {}, {}, map[])
  }

  function At(s: State, id: RelayId, stage: Stage): State {
    if id in s.relays then s.(relays := s.relays[id := s.relays[id].(stage := stage)]) else s
  }

  function Ended(s: State, id: RelayId): State {
    s.(relays := s.relays - {id})
  }

  function Recorded(s: State, id: RelayId, row: Row, stage: Stage): State {
    s.(row := row, relays := s.relays[id := Relay(stage, row)])
  }

  predicate Told(outbox: Outbox) {
    outbox.Delivered? || outbox.ReleasePending? || outbox.Removed?
  }

  function RunNext(s: State, id: RelayId, step: RelayStep): State {
    if step.Load? then
      if id !in s.relays && !s.row.compacted && !s.row.released then
        s.(relays := s.relays[id := Relay(Loaded, s.row)])
      else s
    else if id !in s.relays then s
    else match step
      case Die => Ended(s, id)
      case Hear(ordinal) => HearNext(s, id, ordinal)
      case MarkDelivered(sequence) => DeliveredNext(s, id, sequence)
      case SendAck => AckNext(s, id)
      case ReceiveAck => if s.relays[id].stage.AckSent? && Told(s.outbox) then At(s, id, AckReplied) else s
      case MarkAcknowledged => AcknowledgedNext(s, id)
      case SendRelease => ReleaseNext(s, id)
      case ReceiveRelease =>
        if s.relays[id].stage.ReleaseSent? && s.outbox.Removed? then At(s, id, ReleaseReplied) else s
      case MarkReleased => ReleasedNext(s, id)
      case Load => s
  }

  /** The root answers that the package is available: that it has been, or that it has just been finished. */
  function HearNext(s: State, id: RelayId, ordinal: nat): State
    requires id in s.relays
  {
    if !s.relays[id].stage.Loaded? || s.relays[id].record.delivered || !s.root.state.Available? then s
    else At(s.(held := Some(I.Files(s.root.parts))), id, Transferred(ordinal))
  }

  function DeliveredNext(s: State, id: RelayId, sequence: nat): State
    requires id in s.relays
  {
    var stage := s.relays[id].stage;
    if !stage.Transferred? then s
    else if s.row.compacted || sequence == 0 then Ended(s, id)
    else if !s.row.delivered then
      Recorded(s, id, s.row.(delivered := true, sequence := sequence, ordinal := stage.ordinal), Marked)
    else if s.row.ordinal == stage.ordinal then Recorded(s, id, s.row, Marked)
    else Ended(s, id)
  }

  function AckNext(s: State, id: RelayId): State
    requires id in s.relays
  {
    var r := s.relays[id];
    if r.stage.Marked? || (r.stage.Loaded? && r.record.delivered && !r.record.acknowledged) then
      At(s.(acks := s.acks + {r.record.sequence}), id, AckSent)
    else s
  }

  function AcknowledgedNext(s: State, id: RelayId): State
    requires id in s.relays
  {
    if !s.relays[id].stage.AckReplied? then s
    else if s.row.compacted || !s.row.delivered then Ended(s, id)
    else Recorded(s, id, s.row.(acknowledged := true), Acknowledged)
  }

  function ReleaseNext(s: State, id: RelayId): State
    requires id in s.relays
  {
    var r := s.relays[id];
    if r.stage.Acknowledged? || (r.stage.Loaded? && r.record.delivered && r.record.acknowledged) then
      if r.record.acknowledged then At(s.(releases := s.releases + {r.record.sequence}), id, ReleaseSent)
      else Ended(s, id)
    else s
  }

  function ReleasedNext(s: State, id: RelayId): State
    requires id in s.relays
  {
    if !s.relays[id].stage.ReleaseReplied? then s
    else if s.row.compacted || !s.row.delivered || !s.row.acknowledged then Ended(s, id)
    else Ended(s.(row := s.row.(released := true)), id)
  }

  function PeerNext(s: State, step: PeerStep): State {
    match step
    case AcceptMetadata => if s.outbox.PublishPending? then s.(outbox := DeliveryPending) else s
    case CarryOutAck(n) => if n in s.acks && s.outbox.DeliveryPending? then s.(outbox := Delivered(n)) else s
    case CarryOutRelease(n) =>
      if n in s.releases && s.outbox == Delivered(n) then s.(outbox := ReleasePending(n)) else s
    case DeletePayload => if s.outbox.ReleasePending? then s.(payload := false) else s
    case RemoveEntry => if s.outbox.ReleasePending? && !s.payload then s.(outbox := Removed) else s
    case Inbox(x) => if I.ValidRoot(s.root, s.content) then s.(root := I.RootNext(s.root, s.content, x)) else s
  }

  function Next(s: State, step: Step): State {
    match step
    case Run(id, x) => RunNext(s, id, x)
    case Peer(x) => PeerNext(s, x)
    case Crash => s.(relays := map[])
    case CompactRow => if s.row.released then s.(row := s.row.(compacted := true)) else s
  }

  function Exec(s: State, steps: seq<Step>): State {
    if steps == [] then s else Next(Exec(s, steps[..|steps| - 1]), steps[|steps| - 1])
  }

  // The invariant

  ghost predicate RowInv(s: State) {
    && (s.row.delivered <==> s.row.sequence > 0)
    && (s.row.delivered ==> s.held.Some?)
    && (s.row.acknowledged ==> s.row.delivered && Told(s.outbox))
    && (s.row.released ==> s.row.acknowledged && s.outbox.Removed?)
    && (s.row.compacted ==> s.row.released)
  }

  ghost predicate MessageInv(s: State) {
    && (forall n :: n in s.acks ==> s.row.delivered && n == s.row.sequence)
    && (forall n :: n in s.releases ==> s.row.acknowledged && n == s.row.sequence)
  }

  ghost predicate OutboxInv(s: State) {
    match s.outbox
    case PublishPending => s.payload
    case DeliveryPending => s.payload
    case Delivered(n) => s.payload && s.row.delivered && n == s.row.sequence
    case ReleasePending(n) => s.row.acknowledged && n == s.row.sequence
    case Removed => s.row.acknowledged && !s.payload
  }

  /** A record a relay holds is the row as it once was. */
  predicate Earlier(record: Row, row: Row) {
    && (record.delivered ==> row.delivered && row.sequence == record.sequence && row.ordinal == record.ordinal)
    && (record.acknowledged ==> record.delivered && row.acknowledged)
    && (record.released ==> row.released)
    && (record.compacted ==> row.compacted)
  }

  ghost predicate RelayInv(s: State, id: RelayId) {
    id in s.relays ==>
      var r := s.relays[id];
      && Earlier(r.record, s.row)
      && match r.stage {
           case Loaded => true
           case Transferred(_) => s.held.Some?
           case Marked => r.record.delivered
           case AckSent => r.record.delivered
           case AckReplied => r.record.delivered && Told(s.outbox)
           case Acknowledged => r.record.acknowledged
           case ReleaseSent => r.record.acknowledged
           case ReleaseReplied => r.record.acknowledged && s.outbox.Removed?
         }
  }

  ghost predicate RootInv(s: State) {
    I.ValidRoot(s.root, s.content) && (s.held.Some? ==> s.held.value == s.content)
  }

  ghost predicate Inv(s: State) {
    RowInv(s) && MessageInv(s) && OutboxInv(s) && RootInv(s) && forall id :: RelayInv(s, id)
  }

  lemma DeliveryKeeps(s: State, id: RelayId, step: RelayStep)
    requires Inv(s) && id in s.relays && (step.Hear? || step.MarkDelivered?)
    ensures Inv(RunNext(s, id, step))
  {
    if s.root.state.Available? { I.PublishedFiles(s.root, s.content); }
    assert RelayInv(s, id);
    forall j ensures RelayInv(RunNext(s, id, step), j) { assert RelayInv(s, j); }
  }

  lemma AckKeeps(s: State, id: RelayId, step: RelayStep)
    requires Inv(s) && id in s.relays && (step.SendAck? || step.ReceiveAck? || step.MarkAcknowledged?)
    ensures Inv(RunNext(s, id, step))
  {
    assert RelayInv(s, id);
    forall j ensures RelayInv(RunNext(s, id, step), j) { assert RelayInv(s, j); }
  }

  lemma ReleaseKeeps(s: State, id: RelayId, step: RelayStep)
    requires Inv(s) && id in s.relays && (step.SendRelease? || step.ReceiveRelease? || step.MarkReleased?)
    ensures Inv(RunNext(s, id, step))
  {
    assert RelayInv(s, id);
    forall j ensures RelayInv(RunNext(s, id, step), j) { assert RelayInv(s, j); }
  }

  lemma RunKeeps(s: State, id: RelayId, step: RelayStep)
    requires Inv(s)
    ensures Inv(RunNext(s, id, step))
  {
    if step.Load? || step.Die? || id !in s.relays {
      forall j ensures RelayInv(RunNext(s, id, step), j) { assert RelayInv(s, j); }
    } else if step.Hear? || step.MarkDelivered? {
      DeliveryKeeps(s, id, step);
    } else if step.SendAck? || step.ReceiveAck? || step.MarkAcknowledged? {
      AckKeeps(s, id, step);
    } else {
      ReleaseKeeps(s, id, step);
    }
  }

  lemma PeerKeeps(s: State, step: PeerStep)
    requires Inv(s)
    ensures Inv(PeerNext(s, step))
  {
    if step.Inbox? { I.RootKeeps(s.root, s.content, step.step); }
    forall j ensures RelayInv(PeerNext(s, step), j) { assert RelayInv(s, j); }
  }

  lemma StepKeeps(s: State, step: Step)
    requires Inv(s)
    ensures Inv(Next(s, step))
  {
    match step
    case Run(id, x) => RunKeeps(s, id, x);
    case Peer(x) => PeerKeeps(s, x);
    case _ => forall j ensures RelayInv(Next(s, step), j) { assert RelayInv(s, j); }
  }

  lemma {:induction false} AlwaysInv(content: seq<I.Bytes>, steps: seq<Step>)
    ensures Inv(Exec(Published(content), steps))
  {
    if steps != [] {
      AlwaysInv(content, steps[..|steps| - 1]);
      StepKeeps(Exec(Published(content), steps[..|steps| - 1]), steps[|steps| - 1]);
    }
  }

  // What holds in every reachable state

  ghost predicate Reachable(s: State) {
    exists content, steps :: s == Exec(Published(content), steps)
  }

  lemma ReachableInv(s: State)
    requires Reachable(s)
    ensures Inv(s)
  {
    var content, steps :| s == Exec(Published(content), steps);
    AlwaysInv(content, steps);
  }

  /**
   The order of what is told and what is recorded: a delivery is recorded only of a package whose every
   part the root has held byte for byte, an acknowledgement is asked for only of a recorded delivery, and
   a release only of a recorded acknowledgement.
   */
  lemma ToldInOrder(s: State, n: nat)
    requires Reachable(s)
    ensures s.row.delivered ==> s.held == Some(s.content)
    ensures n in s.acks ==> s.row.delivered && n == s.row.sequence
    ensures n in s.releases ==> s.row.acknowledged && n == s.row.sequence
  {
    ReachableInv(s);
  }

  /**
   The source lets the payload go only after the root has published all of it and the broker has
   recorded both that and the source's acknowledgement.
   */
  lemma PayloadOutlivesDelivery(s: State)
    requires Reachable(s)
    ensures !s.payload ==> s.held == Some(s.content) && s.row.delivered && s.row.acknowledged
    ensures s.row.released ==> !s.payload && s.outbox.Removed?
    ensures s.row.compacted ==> s.row.released
  {
    ReachableInv(s);
  }

  /** However late it is carried out, no message to the source conflicts with what the source already knows. */
  lemma MessagesAgree(s: State, n: nat)
    requires Reachable(s)
    ensures n in s.acks && (s.outbox.Delivered? || s.outbox.ReleasePending?) ==> s.outbox.sequence == n
    ensures n in s.releases ==> s.outbox == Delivered(n) || s.outbox == ReleasePending(n) || s.outbox.Removed?
  {
    ReachableInv(s);
  }

  function Rank(outbox: Outbox): nat {
    match outbox
    case PublishPending => 0
    case DeliveryPending => 1
    case Delivered(_) => 2
    case ReleasePending(_) => 3
    case Removed => 4
  }

  ghost predicate Advances(s: State, t: State) {
    && Earlier(s.row, t.row) && Rank(s.outbox) <= Rank(t.outbox)
    && (t.payload ==> s.payload) && (s.held.Some? ==> t.held == s.held) && t.content == s.content
  }

  lemma RunAdvances(s: State, id: RelayId, step: RelayStep)
    requires Inv(s)
    ensures Advances(s, RunNext(s, id, step))
  {
    if s.root.state.Available? { I.PublishedFiles(s.root, s.content); }
    assert RelayInv(s, id);
  }

  lemma StepAdvances(s: State, step: Step)
    requires Inv(s)
    ensures Advances(s, Next(s, step))
  {
    if step.Run? { RunAdvances(s, step.id, step.relay); }
  }

  /** Nothing recorded on either side is ever taken back. */
  lemma {:induction false} NeverGoesBack(s: State, steps: seq<Step>)
    requires Inv(s)
    ensures Inv(Exec(s, steps)) && Advances(s, Exec(s, steps))
  {
    if steps != [] {
      var before := Exec(s, steps[..|steps| - 1]);
      NeverGoesBack(s, steps[..|steps| - 1]);
      StepKeeps(before, steps[|steps| - 1]);
      StepAdvances(before, steps[|steps| - 1]);
    }
  }

  /** What the store makes of a mark: refused once the row is gone or delivered under another ordinal. */
  lemma MarkedExactly(s: State, id: RelayId, sequence: nat)
    requires Inv(s) && id in s.relays && s.relays[id].stage.Transferred? && sequence > 0
    ensures var n := RunNext(s, id, MarkDelivered(sequence)); var ordinal := s.relays[id].stage.ordinal;
            && (id in n.relays && n.relays[id].stage.Marked? <==>
                 !s.row.compacted && (s.row.delivered ==> s.row.ordinal == ordinal))
            && (id in n.relays ==> n.relays[id].record == n.row && n.row.delivered && n.row.ordinal == ordinal)
            && (s.row.delivered || s.row.compacted ==> n.row == s.row)
  {
  }

  /** A relay takes up what its record says is left to do, and nothing that is done. */
  lemma RelayGoesByRecord(s: State, id: RelayId, ordinal: nat)
    requires Inv(s) && id in s.relays && s.relays[id].stage.Loaded?
    ensures var r := s.relays[id].record;
            && (r.delivered ==> RunNext(s, id, Hear(ordinal)) == s)
            && (RunNext(s, id, SendAck) != s <==> r.delivered && !r.acknowledged)
            && (RunNext(s, id, SendRelease) != s <==> r.acknowledged)
  {
    assert RelayInv(s, id);
  }

  /** An acknowledgement that was answered is recorded unless the row is gone, and a row goes only once released. */
  lemma RecordingTakes(s: State, id: RelayId)
    requires Inv(s)
    ensures id in s.relays && s.relays[id].stage.AckReplied? ==>
              var n := RunNext(s, id, MarkAcknowledged);
              if s.row.compacted then id !in n.relays && n.row == s.row
              else id in n.relays && n.row == s.row.(acknowledged := true)
    ensures Next(s, CompactRow).row == if s.row.released then s.row.(compacted := true) else s.row
    ensures Next(s, Crash) == s.(relays := map[])
    ensures s.outbox.PublishPending? ==> PeerNext(s, AcceptMetadata).outbox.DeliveryPending?
  {
    assert RelayInv(s, id);
  }

  // One relay

  /** The calls a relay makes of the source; a fault is one that fails after it has taken effect. */
  datatype Call = AckCall | ReleaseCall

  method Take(ghost first: State, s: State, ghost trace: seq<Step>, step: Step)
    returns (t: State, ghost longer: seq<Step>)
    requires Inv(s) && s == Exec(first, trace)
    ensures Inv(t) && t == Next(s, step) == Exec(first, longer)
  {
    StepKeeps(s, step);
    t, longer := Next(s, step), trace + [step];
    assert longer[..|trace|] == trace;
  }

  ghost predicate Standing(s: State, id: RelayId) {
    id in s.relays && s.relays[id].record == s.row && !s.row.compacted && !s.row.released
  }

  function Lifted(steps: seq<I.RootStep>): seq<Step> {
    seq(|steps|, i requires 0 <= i < |steps| => Peer(Inbox(steps[i])))
  }

  /** What happens in the inbox happens to the inbox alone. */
  lemma {:induction false} InboxRun(s: State, steps: seq<I.RootStep>)
    requires Inv(s)
    ensures Exec(s, Lifted(steps)) == s.(root := I.RootExec(s.root, s.content, steps))
    ensures Inv(Exec(s, Lifted(steps)))
  {
    if steps != [] {
      InboxRun(s, steps[..|steps| - 1]);
      assert Lifted(steps)[..|steps| - 1] == Lifted(steps[..|steps| - 1]);
      StepKeeps(Exec(s, Lifted(steps[..|steps| - 1])), Lifted(steps)[|steps| - 1]);
    }
  }

  lemma {:induction false} ExecConcat(s: State, a: seq<Step>, b: seq<Step>)
    ensures Exec(s, a + b) == Exec(Exec(s, a), b)
  {
    if b == [] {
      assert a + b == a;
    } else {
      ExecConcat(s, a, b[..|b| - 1]);
      assert (a + b)[..|a + b| - 1] == a + b[..|b| - 1];
    }
  }

  /** The copy itself, on the inbox as it stands. */
  method Copy(ghost first: State, s0: State, ghost trace0: seq<Step>, attempt: I.AttemptId, c: T.Conditions)
    returns (ok: bool, began: bool, s: State, ghost trace: seq<Step>)
    requires Inv(s0) && s0 == Exec(first, trace0)
    ensures Inv(s) && s == Exec(first, trace) && s == s0.(root := s.root)
    ensures ok ==> s.root.state.Available?
    ensures began ==> s.root.state == I.Receiving(attempt) || s.root.state == I.Available(attempt)
    ensures !began && !c.begin.Unheard? ==> s.root == s0.root
    ensures began <==> c.begin.Fine? && I.BegunRoot(s0.root, attempt, c.admitted).1.Started?
    ensures c.begin.Unheard? ==> !ok && s.root == I.BegunRoot(s0.root, attempt, c.admitted).0
    ensures T.FaultFree(c) ==> (ok <==> T.CanTransfer(s0.root, s0.content, attempt, c.admitted, c.report))
  {
    var inbox := new I.Inbox(s0.content, s0.root);
    ghost var steps;
    ok, began, steps := T.Transfer(inbox, attempt, c);
    InboxRun(s0, steps);
    ExecConcat(first, trace0, Lifted(steps));
    s, trace := s0.(root := inbox.Contents()), trace0 + Lifted(steps);
  }

  /** A failed copy is cancelled if it began, and the cancellation may fail as well. */
  method Deliver(ghost first: State, s0: State, ghost trace0: seq<Step>, id: RelayId, attempt: I.AttemptId,
                 ordinal: nat, sequence: nat, c: T.Conditions, cancelled: bool)
    returns (ok: bool, s: State, ghost trace: seq<Step>)
    requires Inv(s0) && s0 == Exec(first, trace0) && Standing(s0, id)
    requires s0.relays[id].stage.Loaded? && !s0.row.delivered && sequence > 0
    ensures Inv(s) && s == Exec(first, trace)
    ensures ok ==> Standing(s, id) && s.relays[id].stage.Marked? && !s.row.acknowledged
    ensures ok ==> s.row.delivered && s.row.sequence == sequence && s.row.ordinal == ordinal
    ensures !ok ==> s.row == s0.row && id !in s.relays
    ensures s.outbox == s0.outbox
    // Only an attempt known to have begun is cancelled, and only if that can be sent.
    ensures c.begin.Unheard? ==> !ok && s.root == I.BegunRoot(s0.root, attempt, c.admitted).0
    ensures !cancelled && c.begin.Fine? && I.BegunRoot(s0.root, attempt, c.admitted).1.Started? ==>
              s.root.state == I.Receiving(attempt) || s.root.state == I.Available(attempt)
    // A failed copy leaves nothing behind: the next attempt finds the root as if this one had never been.
    ensures !ok && cancelled && !c.begin.Unheard? && s0.root.state != I.Receiving(attempt) ==>
              s.root.state != I.Receiving(attempt)
    ensures !ok && cancelled && !c.begin.Unheard? && s0.root.state.Absent? && s.root.state != I.Available(attempt) ==>
              s.root.state.Absent?
    ensures T.FaultFree(c) ==> (ok <==> T.CanTransfer(s0.root, s0.content, attempt, c.admitted, c.report))
  {
    var began;
    ok, began, s, trace := Copy(first, s0, trace0, attempt, c);
    if !ok {
      if began && cancelled { s, trace := Take(first, s, trace, Peer(Inbox(I.Cancel(attempt, true)))); }
      s, trace := Take(first, s, trace, Run(id, Die));
      return;
    }
    s, trace := Take(first, s, trace, Run(id, Hear(ordinal)));
    s, trace := Take(first, s, trace, Run(id, MarkDelivered(sequence)));
  }

  method GiveUp(ghost first: State, s0: State, ghost trace0: seq<Step>, id: RelayId)
    returns (s: State, ghost trace: seq<Step>)
    requires Inv(s0) && s0 == Exec(first, trace0) && id in s0.relays
    ensures Inv(s) && s == Exec(first, trace) && s.row == s0.row && id !in s.relays
  {
    s, trace := Take(first, s0, trace0, Run(id, Die));
  }

  /** The source carries an acknowledgement out, or refuses it if it does not know its metadata was accepted. */
  method TakeNote(ghost first: State, s0: State, ghost trace0: seq<Step>, n: nat)
    returns (ok: bool, s: State, ghost trace: seq<Step>)
    requires Inv(s0) && s0 == Exec(first, trace0) && n in s0.acks
    ensures Inv(s) && s == Exec(first, trace) && s == s0.(outbox := s.outbox)
    ensures ok <==> !s0.outbox.PublishPending?
    ensures if ok then Told(s.outbox) else s == s0
  {
    s, trace := Take(first, s0, trace0, Peer(CarryOutAck(n)));
    ok := !s.outbox.PublishPending?;
  }

  method Acknowledge(ghost first: State, s0: State, ghost trace0: seq<Step>, id: RelayId, fails: bool)
    returns (ok: bool, s: State, ghost trace: seq<Step>)
    requires Inv(s0) && s0 == Exec(first, trace0) && Standing(s0, id) && s0.row.delivered && !s0.row.acknowledged
    requires s0.relays[id].stage.Marked? || s0.relays[id].stage.Loaded?
    ensures Inv(s) && s == Exec(first, trace)
    ensures ok <==> !fails && !s0.outbox.PublishPending?
    ensures !ok ==> id !in s.relays && s.row == s0.row
    ensures ok ==> Standing(s, id) && s.relays[id].stage.Acknowledged? && s.row.acknowledged
  {
    s, trace := Take(first, s0, trace0, Run(id, SendAck));
    ok, s, trace := TakeNote(first, s, trace, s.row.sequence);
    if fails || !ok {
      s, trace := GiveUp(first, s, trace, id);
      return false, s, trace;
    }
    s, trace := Take(first, s, trace, Run(id, ReceiveAck));
    s, trace := Take(first, s, trace, Run(id, MarkAcknowledged));
  }

  /** The source carries a release out: the intent, the payload, the entry. */
  method LetGo(ghost first: State, s0: State, ghost trace0: seq<Step>, n: nat)
    returns (s: State, ghost trace: seq<Step>)
    requires Inv(s0) && s0 == Exec(first, trace0) && n in s0.releases
    ensures Inv(s) && s == Exec(first, trace)
    ensures s == s0.(outbox := Removed, payload := false)
  {
    s, trace := Take(first, s0, trace0, Peer(CarryOutRelease(n)));
    s, trace := Take(first, s, trace, Peer(DeletePayload));
    s, trace := Take(first, s, trace, Peer(RemoveEntry));
  }

  method Release(ghost first: State, s0: State, ghost trace0: seq<Step>, id: RelayId, fails: bool)
    returns (ok: bool, s: State, ghost trace: seq<Step>)
    requires Inv(s0) && s0 == Exec(first, trace0) && Standing(s0, id) && s0.row.acknowledged
    requires s0.relays[id].stage.Acknowledged? || s0.relays[id].stage.Loaded?
    ensures Inv(s) && s == Exec(first, trace)
    ensures ok == !fails
    ensures if ok then s.row.released else id !in s.relays && s.row == s0.row
  {
    s, trace := Take(first, s0, trace0, Run(id, SendRelease));
    s, trace := LetGo(first, s, trace, s.row.sequence);
    if fails {
      s, trace := GiveUp(first, s, trace, id);
      return false, s, trace;
    }
    s, trace := Take(first, s, trace, Run(id, ReceiveRelease));
    s, trace := Take(first, s, trace, Run(id, MarkReleased));
    ok := true;
  }

  /**
   One relay taken from start to end while both peers answer. Wherever earlier relays and earlier
   brokers stopped, and unless one of its own calls fails, it finishes the package's life exactly if the
   package was delivered or can be transferred and the source knows that its metadata was accepted.
   */
  method RelayResultPackage(s0: State, id: RelayId, attempt: I.AttemptId, ordinal: nat, sequence: nat,
                            c: T.Conditions, cancelled: bool, faults: set<Call>)
    returns (ok: bool, s: State, ghost trace: seq<Step>)
    requires Inv(s0) && id !in s0.relays && !s0.row.compacted && sequence > 0
    ensures Inv(s) && s == Exec(s0, trace)
    ensures ok ==> s.row.released && !s.payload && s.held == Some(s.content)
    ensures faults == {} && T.FaultFree(c) ==>
              (ok <==> && !s0.outbox.PublishPending?
                       && (s0.row.delivered || T.CanTransfer(s0.root, s0.content, attempt, c.admitted, c.report)))
  {
    s, trace := Take(s0, s0, [], Run(id, Load));
    if s.row.released { return true, s, trace; }
    if !s.row.delivered {
      ok, s, trace := Deliver(s0, s, trace, id, attempt, ordinal, sequence, c, cancelled);
      if !ok { return; }
    }
    if !s.row.acknowledged {
      ok, s, trace := Acknowledge(s0, s, trace, id, AckCall in faults);
      if !ok { return; }
    }
    ok, s, trace := Release(s0, s, trace, id, ReleaseCall in faults);
  }
}
