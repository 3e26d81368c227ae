/**
 Issuing a peer's credential. Several attempts may run at once, each for its own output file; any of
 them can die between any two of its steps; the clock runs on; files come and go; an active
 credential can be revoked. A token's MAC is represented by the token itself.
 */
module CredentialIssue {
  type Token = nat
  type Path = nat
  type AttemptId = nat

  /** The clock counts milliseconds; rows keep whole seconds. */
  const LEASE := 300

  datatype Option<T> = None | Some(value: T)

  datatype Row = Row(mac: Token, disabled: bool, pending: bool, issuedAt: nat)

  // The registry

  predicate IsPending(row: Option<Row>, mac: Token) {
    row.Some? && row.value.pending && row.value.mac == mac
  }

  function Created(row: Option<Row>, mac: Token, issuedAt: nat): (Option<Row>, bool) {
    if row.Some? then (row, false) else (Some(Row(mac, true, true, issuedAt)), true)
  }

  function Activated(row: Option<Row>, mac: Token): Option<Row> {
    if IsPending(row, mac) then Some(row.value.(disabled := false, pending := false)) else row
  }

  function WithoutPending(row: Option<Row>, mac: Token): Option<Row> {
    if IsPending(row, mac) && row.value.disabled then None else row
  }

  function Disabled(row: Option<Row>): Option<Row> {
    if row.Some? then Some(row.value.(disabled := true, pending := false)) else row
  }

  /** How the writing of the token file inside the publishing transaction ends. */
  datatype Writing = Written | Occupied | NotInstalled | InstalledOnly

  /**
   The end of a publication: nothing of it stands, the file is occupied, only the file stands, or
   both file and row.
   */
  datatype Publication = Nowhere | FileTaken | FileOnly | Both

  /** The file is written while the transaction holds the row; a failed write leaves the row as it was. */
  function Published(row: Option<Row>, files: map<Path, Token>, mac: Token, path: Path, writing: Writing)
    : (Option<Row>, map<Path, Token>, Publication)
  {
    if !IsPending(row, mac) || !row.value.disabled || writing.NotInstalled? then (row, files, Nowhere)
    else if path in files || writing.Occupied? then (row, files, FileTaken)
    else if writing.InstalledOnly? then (row, files[path := mac], FileOnly)
    else (Activated(row, mac), files[path := mac], Both)
  }

  class Registry {
    var row: Option<Row>
    var files: map<Path, Token>

    method CreateCredential(mac: Token, issuedAt: nat) returns (ok: bool)
      modifies this`row
      ensures (row, ok) == Created(old(row), mac, issuedAt)
    {
      if row.Some? { return false; }
      row := Some(Row(mac, true, true, issuedAt));
      ok := true;
    }

    /** Succeeds also on a replay, when the credential is already active under this MAC. */
    method ActivateCredential(mac: Token) returns (ok: bool)
      modifies this`row
      ensures row == Activated(old(row), mac)
      ensures ok <==> row.Some? && row.value.mac == mac && !row.value.disabled && !row.value.pending
    {
      if row.Some? && row.value.mac == mac && row.value.pending {
        row := Some(row.value.(disabled := false, pending := false));
        return true;
      }
      ok := row.Some? && !row.value.disabled && !row.value.pending && row.value.mac == mac;
    }

    method PublishPendingCredential(mac: Token, path: Path, writing: Writing) returns (end: Publication)
      modifies this`row, this`files
      ensures (row, files, end) == Published(old(row), old(files), mac, path, writing)
    {
      if row.None? || !row.value.disabled || !row.value.pending || row.value.mac != mac { return Nowhere; }
      if writing.NotInstalled? { return Nowhere; }
      if path in files || writing.Occupied? { return FileTaken; }
      files := files[path := mac];
      if writing.InstalledOnly? { return FileOnly; }
      row := Some(row.value.(disabled := false, pending := false));
      end := Both;
    }

    method DeletePendingCredential(mac: Token) returns (ok: bool)
      modifies this`row
      ensures row == WithoutPending(old(row), mac)
      ensures ok <==> old(row).Some? && row.None?
    {
      if row.None? || row.value.mac != mac || !row.value.disabled || !row.value.pending { return false; }
      row := None;
      ok := true;
    }

    method DisableCredential() returns (ok: bool)
      modifies this`row
      ensures row == Disabled(old(row)) && ok == old(row).Some?
    {
      if row.None? { return false; }
      row := Some(row.value.(disabled := true, pending := false));
      ok := true;
    }
  }

  /** Disabling leaves nothing pending, and a row that is not disabled is neither deleted nor published again. */
  lemma EnabledIsSafe(row: Option<Row>, files: map<Path, Token>, mac: Token, path: Path, writing: Writing)
    ensures row.Some? ==> Disabled(row) == Some(Row(row.value.mac, true, false, row.value.issuedAt))
    ensures row.Some? && !row.value.disabled ==>
              WithoutPending(row, mac) == row && Published(row, files, mac, path, writing) == (row, files, Nowhere)
  {
  }

  // Whole runs

  /** Where an attempt stands: what it has read so far, and the token it is about to use. */
  datatype Stage =
    | Begun
    | SawFile(existing: Option<Token>)
    | MustActivate(found: Token)
    | MustDelete(mac: Token, issuedAt: nat)
    | MustCreate
    | MustPublish(token: Token)
    | MustCleanUp(token: Token)
    | Over(recovered: bool, ok: bool)

  datatype Attempt = Attempt(now: nat, path: Path, stage: Stage)

  /** `mac` became active for an attempt that found or wrote `token`. */
  datatype Activation = Activation(mac: Token, token: Token)

  /** A pending row deleted at `time`; `maker` is whose it was. */
  datatype Deletion = Deletion(issuedAt: nat, maker: AttemptId, remover: AttemptId, time: nat)

  datatype State = State(
    row: Option<Row>, files: map<Path, Token>, clock: nat, issued: nat,
    attempts: map<AttemptId, Attempt>, revoking: set<nat>,
    makers: map<Token, AttemptId>, activations: seq<Activation>, deletions: seq<Deletion>, revoked: bool)

  datatype AttemptStep =
    | Begin(path: Path) | ReadFile | ReadRow
    | Activate | DeleteStale | Create | Publish(writing: Writing) | CleanUp | Die
  datatype WorldStep =
    | Tick(elapsed: nat)
    | PutFile(path: Path, token: Token) | DropFile(path: Path)
    | CheckRevoke(id: nat) | Revoke(id: nat)
  datatype Step = Run(id: AttemptId, attempt: AttemptStep) | World(world: WorldStep)

  const NOTHING := State(None, map[], 0, 0, map[], {}, map[], [], [], false)

  function At(s: State, a: AttemptId, stage: Stage): State {
    if a in s.attempts then s.(attempts := s.attempts[a := s.attempts[a].(stage := stage)]) else s
  }

  /** The decision after both reads. */
  function Decide(now: nat, existing: Option<Token>, stored: Option<Row>): Stage {
    match stored
    case None => if existing.Some? then Over(false, false) else MustCreate
    case Some(row) =>
      if row.pending then
        if existing.Some? then
          if existing.value == row.mac then MustActivate(existing.value) else Over(false, false)
        else if now < (row.issuedAt + LEASE) * 1000 then Over(false, false)
        else MustDelete(row.mac, row.issuedAt)
      else if row.disabled then Over(false, false)
      else Over(true, existing == Some(row.mac))
  }

  function RunNext(s: State, a: AttemptId, step: AttemptStep): State {
    if step.Begin? then
      if a in s.attempts then s else s.(attempts := s.attempts[a := Attempt(s.clock, step.path, Begun)])
    else if a !in s.attempts then s
    else if step.Die? then s.(attempts := s.attempts[a := s.attempts[a].(stage := Over(false, false))])
    else match s.attempts[a].stage
      case Begun =>
        var path := s.attempts[a].path;
        if step.ReadFile? then At(s, a, SawFile(if path in s.files then Some(s.files[path]) else None)) else s
      case SawFile(existing) => if step.ReadRow? then At(s, a, Decide(s.attempts[a].now, existing, s.row)) else s
      case MustActivate(found) => if step.Activate? then ActivateNext(s, a, found) else s
      case MustDelete(mac, _) => if step.DeleteStale? then DeleteNext(s, a, mac, MustCreate) else s
      case MustCreate => if step.Create? then CreateNext(s, a) else s
      case MustPublish(token) => if step.Publish? then PublishNext(s, a, token, step.writing) else s
      case MustCleanUp(token) => if step.CleanUp? then DeleteNext(s, a, token, Over(false, false)) else s
      case Over(_, _) => s
  }

  function ActivateNext(s: State, a: AttemptId, found: Token): State {
    if IsPending(s.row, found) then
      At(s.(row := Activated(s.row, found), activations := s.activations + [Activation(s.row.value.mac, found)]),
         a, Over(true, true))
    else At(s, a, Over(true, s.row.Some? && s.row.value.mac == found && !s.row.value.disabled && !s.row.value.pending))
  }

  function DeleteNext(s: State, a: AttemptId, mac: Token, after: Stage): State {
    if WithoutPending(s.row, mac) != s.row && mac in s.makers then
      At(s.(row := WithoutPending(s.row, mac),
            deletions := s.deletions + [Deletion(s.row.value.issuedAt, s.makers[mac], a, s.clock)]),
         a, after)
    else At(s, a, Over(false, false))
  }

  /** A fresh token, and a pending row for it if there is none yet. */
  function CreateNext(s: State, a: AttemptId): State
    requires a in s.attempts
  {
    var token := s.issued;
    var (row, ok) := Created(s.row, token, s.attempts[a].now / 1000);
    At(s.(issued := token + 1, row := row, makers := s.makers[token := a]),
       a, if ok then MustPublish(token) else Over(false, false))
  }

  function PublishNext(s: State, a: AttemptId, token: Token, writing: Writing): State
    requires a in s.attempts
  {
    var (row, files, end) := Published(s.row, s.files, token, s.attempts[a].path, writing);
    var n := s.(row := row, files := files);
    match end
    case Nowhere => At(n, a, MustCleanUp(token))
    case FileTaken => At(n, a, Over(false, false))
    case FileOnly => At(n, a, Over(false, false))
    case Both => At(n.(activations := s.activations + [Activation(s.row.value.mac, token)]), a, Over(false, true))
  }

  function WorldNext(s: State, step: WorldStep): State {
    match step
    case Tick(n) => s.(clock := s.clock + n)
    case PutFile(path, token) => s.(files := s.files[path := token])
    case DropFile(path) => s.(files := s.files - {path})
    case CheckRevoke(r) => if s.row.Some? && !s.row.value.pending then s.(revoking := s.revoking + {r}) else s
    case Revoke(r) => if r in s.revoking && s.row.Some? then s.(row := Disabled(s.row), revoked := true) else s
  }

  function Next(s: State, step: Step): State {
    match step
    case Run(a, x) => RunNext(s, a, x)
    case World(x) => WorldNext(s, x)
  }

  function Exec(s: State, steps: seq<Step>): State {
    if steps == [] then s else Next(Exec(s, steps[..|steps| - 1]), steps[|steps| - 1])
  }

  // The invariant

  ghost predicate RowInv(s: State) {
    && (s.row.Some? ==>
          && s.row.value.mac < s.issued && s.row.value.mac in s.makers
          && (s.row.value.pending ==> s.row.value.disabled && s.activations == [])
          && (!s.row.value.pending ==> |s.activations| == 1 && s.activations[0].mac == s.row.value.mac)
          && (!s.row.value.pending && s.row.value.disabled ==> s.revoked))
    && (s.row.None? ==> s.activations == [] && !s.revoked)
    && (s.revoked ==> s.row.Some? && s.row.value.disabled && !s.row.value.pending)
    && (s.revoking != {} ==> s.row.Some? && !s.row.value.pending)
    && (forall i :: 0 <= i < |s.activations| ==> s.activations[i].mac == s.activations[i].token)
    && (forall m :: m in s.makers ==> m < s.issued)
  }

  /** A row's time is when its maker began, and never lies ahead of the clock. */
  ghost predicate AttemptInv(s: State, a: AttemptId) {
    a in s.attempts ==>
      var x := s.attempts[a];
      && x.now <= s.clock
      && match x.stage {
           case MustDelete(mac, issuedAt) =>
             && (issuedAt + LEASE) * 1000 <= x.now && mac < s.issued
             && (IsPending(s.row, mac) ==> s.row.value.issuedAt == issuedAt)
           case MustPublish(token) => token in s.makers && s.makers[token] == a
           case MustCleanUp(token) => token in s.makers && s.makers[token] == a
           case _ => true
         }
  }

  /** Nobody's pending enrollment is discarded by somebody else before its lease is over. */
  ghost predicate DeletionInv(d: Deletion) {
    d.remover == d.maker || (d.issuedAt + LEASE) * 1000 <= d.time
  }

  ghost predicate Inv(s: State) {
    && RowInv(s)
    && (forall a :: AttemptInv(s, a))
    && (forall i :: 0 <= i < |s.deletions| ==> DeletionInv(s.deletions[i]))
  }

  lemma DeleteKeeps(s: State, a: AttemptId, mac: Token, after: Stage)
    requires Inv(s) && a in s.attempts && (after.MustCreate? || after.Over?)
    requires || (mac in s.makers && s.makers[mac] == a)
             || (IsPending(s.row, mac) ==> (s.row.value.issuedAt + LEASE) * 1000 <= s.clock)
    ensures Inv(DeleteNext(s, a, mac, after))
  {
    forall b ensures AttemptInv(DeleteNext(s, a, mac, after), b) { assert AttemptInv(s, b); }
  }

  lemma CreateKeeps(s: State, a: AttemptId)
    requires Inv(s) && a in s.attempts
    ensures Inv(CreateNext(s, a))
  {
    forall b ensures AttemptInv(CreateNext(s, a), b) { assert AttemptInv(s, b); }
  }

  lemma PublishKeepsRow(s: State, a: AttemptId, token: Token, writing: Writing)
    requires RowInv(s) && a in s.attempts && token in s.makers
    ensures RowInv(PublishNext(s, a, token, writing))
  {
  }

  lemma PublishKeeps(s: State, a: AttemptId, token: Token, writing: Writing)
    requires Inv(s) && a in s.attempts && s.attempts[a].stage == MustPublish(token)
    ensures Inv(PublishNext(s, a, token, writing))
  {
    assert AttemptInv(s, a);
    PublishKeepsRow(s, a, token, writing);
    forall b ensures AttemptInv(PublishNext(s, a, token, writing), b) { assert AttemptInv(s, b); }
  }

  lemma ActivateKeeps(s: State, a: AttemptId, found: Token)
    requires Inv(s) && a in s.attempts
    ensures Inv(ActivateNext(s, a, found))
  {
    forall b ensures AttemptInv(ActivateNext(s, a, found), b) { assert AttemptInv(s, b); }
  }

  /** Beginning, reading, deciding and dying change nothing but the attempt. */
  lemma MovedKeeps(s: State, a: AttemptId, x: Attempt)
    requires Inv(s) && AttemptInv(s.(attempts := s.attempts[a := x]), a)
    ensures Inv(s.(attempts := s.attempts[a := x]))
  {
    var n := s.(attempts := s.attempts[a := x]);
    forall b ensures AttemptInv(n, b) { assert AttemptInv(s, b); }
  }

  lemma RunKeeps(s: State, a: AttemptId, step: AttemptStep)
    requires Inv(s)
    ensures Inv(RunNext(s, a, step))
  {
    var n := RunNext(s, a, step);
    assert AttemptInv(s, a);
    if n == s {
    } else if step.Begin? || step.Die? || step.ReadFile? || step.ReadRow? {
      MovedKeeps(s, a, n.attempts[a]);
    } else {
      match step
      case Activate => ActivateKeeps(s, a, s.attempts[a].stage.found);
      case DeleteStale => DeleteKeeps(s, a, s.attempts[a].stage.mac, MustCreate);
      case Create => CreateKeeps(s, a);
      case Publish(writing) => PublishKeeps(s, a, s.attempts[a].stage.token, writing);
      case CleanUp => DeleteKeeps(s, a, s.attempts[a].stage.token, Over(false, false));
    }
  }

  lemma WorldKeeps(s: State, step: WorldStep)
    requires Inv(s)
    ensures Inv(WorldNext(s, step))
  {
    forall b ensures AttemptInv(WorldNext(s, step), b) { assert AttemptInv(s, b); }
  }

  lemma StepKeeps(s: State, step: Step)
    requires Inv(s)
    ensures Inv(Next(s, step))
  {
    match step
    case Run(a, x) => RunKeeps(s, a, x);
    case World(x) => WorldKeeps(s, x);
  }

  lemma {:induction false} AlwaysInv(steps: seq<Step>)
    ensures Inv(Exec(NOTHING, steps))
  {
    if steps != [] {
      AlwaysInv(steps[..|steps| - 1]);
      StepKeeps(Exec(NOTHING, steps[..|steps| - 1]), steps[|steps| - 1]);
    }
  }

  // What holds in every reachable state

  ghost predicate Reachable(s: State) {
    exists steps :: s == Exec(NOTHING, steps)
  }

  lemma ReachableInv(s: State)
    requires Reachable(s)
    ensures Inv(s)
  {
    var steps :| s == Exec(NOTHING, steps);
    AlwaysInv(steps);
  }

  /**
   At most one MAC is ever activated; it is the MAC of the token its attempt found or wrote; and a
   row that is not pending is the activated one.
   */
  lemma OneActivation(s: State)
    requires Reachable(s)
    ensures && |s.activations| <= 1
            && (forall i :: 0 <= i < |s.activations| ==> s.activations[i].mac == s.activations[i].token)
            && (s.row.Some? && !s.row.value.pending ==> |s.activations| == 1 && s.row.value.mac == s.activations[0].mac)
  {
    ReachableInv(s);
  }

  lemma RevokedStays(s: State, step: Step)
    requires Inv(s) && s.revoked
    ensures Next(s, step).revoked && Next(s, step).row == s.row && Next(s, step).activations == s.activations
  {
    if step.Run? { assert AttemptInv(s, step.id); }
  }

  /** Whatever attempts are under way or come later, a revoked credential stays revoked. */
  lemma {:induction false} RevokedForGood(s: State, steps: seq<Step>)
    requires Inv(s) && s.revoked
    ensures Inv(Exec(s, steps)) && Exec(s, steps).revoked
    ensures Exec(s, steps).row == s.row && Exec(s, steps).activations == s.activations
    ensures s.row.Some? && s.row.value.disabled && !s.row.value.pending
  {
    if steps != [] {
      var before := Exec(s, steps[..|steps| - 1]);
      RevokedForGood(s, steps[..|steps| - 1]);
      StepKeeps(before, steps[|steps| - 1]);
      RevokedStays(before, steps[|steps| - 1]);
    }
  }

  /** Only its own attempt discards a pending enrollment whose recovery lease has not run out. */
  lemma LeaseRespected(s: State, i: nat)
    requires Reachable(s)
    ensures i < |s.deletions| && s.deletions[i].remover != s.deletions[i].maker ==>
              (s.deletions[i].issuedAt + LEASE) * 1000 <= s.deletions[i].time
  {
    ReachableInv(s);
    if i < |s.deletions| { assert DeletionInv(s.deletions[i]); }
  }

  /** A row, and a deleted row, has the time its maker began. */
  ghost predicate TimeInv(s: State) {
    && (forall m :: m in s.makers ==> s.makers[m] in s.attempts)
    && (s.row.Some? ==> s.row.value.mac in s.makers && Timed(s, s.makers[s.row.value.mac], s.row.value.issuedAt))
    && (forall i :: 0 <= i < |s.deletions| ==> Timed(s, s.deletions[i].maker, s.deletions[i].issuedAt))
  }

  predicate Timed(s: State, maker: AttemptId, issuedAt: nat) {
    maker in s.attempts && issuedAt == s.attempts[maker].now / 1000
  }

  /** No step changes when an attempt began. */
  ghost predicate SameStart(s: State, n: State) {
    forall a :: a in s.attempts ==> a in n.attempts && n.attempts[a].now == s.attempts[a].now
  }

  lemma ActivatingKeepsStart(s: State, a: AttemptId, found: Token)
    ensures SameStart(s, ActivateNext(s, a, found))
  {
  }

  lemma DeletingKeepsStart(s: State, a: AttemptId, mac: Token, after: Stage)
    ensures SameStart(s, DeleteNext(s, a, mac, after))
  {
  }

  lemma CreatingKeepsStart(s: State, a: AttemptId)
    requires a in s.attempts
    ensures SameStart(s, CreateNext(s, a))
  {
  }

  lemma PublishingKeepsStart(s: State, a: AttemptId, token: Token, writing: Writing)
    requires a in s.attempts
    ensures SameStart(s, PublishNext(s, a, token, writing))
  {
  }

  lemma RunKeepsStart(s: State, a: AttemptId, step: AttemptStep)
    ensures SameStart(s, RunNext(s, a, step))
  {
    if !step.Begin? && a in s.attempts && !step.Die? {
      match s.attempts[a].stage
      case MustActivate(found) => ActivatingKeepsStart(s, a, found);
      case MustDelete(mac, _) => DeletingKeepsStart(s, a, mac, MustCreate);
      case MustCreate => CreatingKeepsStart(s, a);
      case MustPublish(token) => if step.Publish? { PublishingKeepsStart(s, a, token, step.writing); }
      case MustCleanUp(token) => DeletingKeepsStart(s, a, token, Over(false, false));
      case _ =>
    }
  }

  lemma StartsKept(s: State, step: Step)
    ensures SameStart(s, Next(s, step))
  {
    if step.Run? { RunKeepsStart(s, step.id, step.attempt); }
  }

  lemma TimesKept(s: State, step: Step)
    requires Inv(s) && TimeInv(s)
    ensures TimeInv(Next(s, step))
  {
    StartsKept(s, step);
    if step.Run? && step.id in s.attempts {
      RunTimes(s, step.id, step.attempt);
    }
  }

  lemma DeletedIsTimed(s: State, a: AttemptId, mac: Token, after: Stage, i: nat)
    requires TimeInv(s) && SameStart(s, DeleteNext(s, a, mac, after)) && i < |DeleteNext(s, a, mac, after).deletions|
    ensures var n := DeleteNext(s, a, mac, after); Timed(n, n.deletions[i].maker, n.deletions[i].issuedAt)
  {
    if i < |s.deletions| { assert Timed(s, s.deletions[i].maker, s.deletions[i].issuedAt); }
  }

  lemma DeletingKeepsTimes(s: State, a: AttemptId, mac: Token, after: Stage)
    requires TimeInv(s) && SameStart(s, DeleteNext(s, a, mac, after))
    ensures TimeInv(DeleteNext(s, a, mac, after))
  {
    var n := DeleteNext(s, a, mac, after);
    forall i | 0 <= i < |n.deletions| ensures Timed(n, n.deletions[i].maker, n.deletions[i].issuedAt) {
      DeletedIsTimed(s, a, mac, after, i);
    }
  }

  lemma CreatingKeepsTimes(s: State, a: AttemptId)
    requires TimeInv(s) && a in s.attempts && SameStart(s, CreateNext(s, a))
    requires forall m :: m in s.makers ==> m < s.issued
    ensures TimeInv(CreateNext(s, a))
  {
  }

  lemma PublishingKeepsTimes(s: State, a: AttemptId, token: Token, writing: Writing)
    requires TimeInv(s) && a in s.attempts && SameStart(s, PublishNext(s, a, token, writing))
    ensures TimeInv(PublishNext(s, a, token, writing))
  {
  }

  lemma RunTimes(s: State, a: AttemptId, step: AttemptStep)
    requires Inv(s) && TimeInv(s) && a in s.attempts && SameStart(s, RunNext(s, a, step))
    ensures TimeInv(RunNext(s, a, step))
  {
    if !step.Begin? && !step.Die? && RunNext(s, a, step) != s {
      match s.attempts[a].stage
      case MustDelete(mac, _) => DeletingKeepsTimes(s, a, mac, MustCreate);
      case MustCreate => CreatingKeepsTimes(s, a);
      case MustPublish(token) => PublishingKeepsTimes(s, a, token, step.writing);
      case MustCleanUp(token) => DeletingKeepsTimes(s, a, token, Over(false, false));
      case _ =>
    }
  }

  lemma {:induction false} AlwaysTimed(steps: seq<Step>)
    ensures TimeInv(Exec(NOTHING, steps))
  {
    if steps != [] {
      AlwaysTimed(steps[..|steps| - 1]);
      AlwaysInv(steps[..|steps| - 1]);
      TimesKept(Exec(NOTHING, steps[..|steps| - 1]), steps[|steps| - 1]);
    }
  }

  /** The lease that others respect runs from the second in which the enrollment's own attempt began. */
  lemma LeaseRunsFromItsMaker(s: State, i: nat)
    requires Reachable(s) && i < |s.deletions| && s.deletions[i].remover != s.deletions[i].maker
    ensures s.deletions[i].maker in s.attempts
    ensures (s.attempts[s.deletions[i].maker].now / 1000 + LEASE) * 1000 <= s.deletions[i].time
  {
    LeaseRespected(s, i);
    var steps :| s == Exec(NOTHING, steps);
    AlwaysTimed(steps);
    assert Timed(s, s.deletions[i].maker, s.deletions[i].issuedAt);
  }

  /** An activation is reported a success exactly if the credential is then active under the token found. */
  lemma ActivationReported(s: State, a: AttemptId, found: Token)
    requires Inv(s) && a in s.attempts && s.attempts[a].stage == MustActivate(found)
    ensures var n := Next(s, Run(a, Activate));
            && n.attempts[a].stage.Over?
            && (n.attempts[a].stage.ok <==>
                 n.row.Some? && n.row.value.mac == found && !n.row.value.disabled && !n.row.value.pending)
  {
  }

  /** No row ever goes but by a deletion that is on record, with the row's time, its maker, its remover and when. */
  lemma DeletionsRecorded(s: State, step: Step)
    requires Inv(s) && s.row.Some? && Next(s, step).row != s.row && Next(s, step).row.None?
    ensures step.Run?
    ensures Next(s, step).deletions ==
              s.deletions + [Deletion(s.row.value.issuedAt, s.makers[s.row.value.mac], step.id, s.clock)]
  {
  }

  /** The world goes its way: time passes and files come and go. */
  lemma WorldTakes(s: State, elapsed: nat, path: Path, token: Token)
    ensures Next(s, World(Tick(elapsed))) == s.(clock := s.clock + elapsed)
    ensures Next(s, World(PutFile(path, token))) == s.(files := s.files[path := token])
    ensures Next(s, World(DropFile(path))) == s.(files := s.files - {path})
  {
  }

  /** A revocation that was checked takes: the credential is disabled, and so for good. */
  lemma RevocationTakes(s: State, r: nat)
    requires Inv(s) && s.row.Some? && !s.row.value.pending
    ensures var n := Next(Next(s, World(CheckRevoke(r))), World(Revoke(r)));
            n.revoked && n.row == Some(s.row.value.(disabled := true))
  {
  }

  /** An attempt can die anywhere, and is then over without success. */
  lemma DyingTakes(s: State, a: AttemptId)
    requires a in s.attempts
    ensures var n := Next(s, Run(a, Die)); n == s.(attempts := n.attempts) && n.attempts[a].stage == Over(false, false)
  {
  }

  /** One that is pending cannot be revoked. */
  lemma PendingNotRevoked(s: State, r: nat)
    requires Inv(s) && s.row.Some? && s.row.value.pending
    ensures Next(Next(s, World(CheckRevoke(r))), World(Revoke(r))) == s
  {
  }

  // One attempt, undisturbed

  method Take(ghost first: State, s: State, ghost trace: seq<Step>, step: Step)
    returns (t: State, ghost longer: seq<Step>)
    requires Inv(s) && s == Exec(first, trace)
    ensures Inv(t) && t == Next(s, step) == Exec(first, longer)
  {
    StepKeeps(s, step);
    t, longer := Next(s, step), trace + [step];
    assert longer[..|trace|] == trace;
  }

  predicate Active(s: State, path: Path) {
    s.row.Some? && !s.row.value.pending && !s.row.value.disabled && path in s.files && s.files[path] == s.row.value.mac
  }

  /** Read the output file, then the row, and decide. */
  method Look(s0: State, a: AttemptId, path: Path) returns (s: State, ghost trace: seq<Step>)
    requires Inv(s0) && a !in s0.attempts
    ensures Inv(s) && s == Exec(s0, trace)
    ensures s == s0.(attempts := s.attempts) && a in s.attempts
    ensures var existing := if path in s0.files then Some(s0.files[path]) else None;
            s.attempts[a] == Attempt(s0.clock, path, Decide(s0.clock, existing, s0.row))
  {
    s, trace := Take(s0, s0, [], Run(a, Begin(path)));
    s, trace := Take(s0, s, trace, Run(a, ReadFile));
    s, trace := Take(s0, s, trace, Run(a, ReadRow));
  }

  /** A pending row for a fresh token. */
  method Reserve(ghost first: State, s0: State, ghost trace0: seq<Step>, a: AttemptId)
    returns (s: State, ghost trace: seq<Step>)
    requires Inv(s0) && s0 == Exec(first, trace0) && a in s0.attempts && s0.attempts[a].stage.MustCreate? &&
               s0.row.None?
    ensures Inv(s) && s == Exec(first, trace) && s.files == s0.files
    ensures a in s.attempts && s.attempts[a] == s0.attempts[a].(stage := MustPublish(s0.issued)) &&
              IsPending(s.row, s0.issued)
  {
    s, trace := Take(first, s0, trace0, Run(a, Create));
  }

  /** Give a pending row up whose token could not be written. */
  method Withdraw(ghost first: State, s0: State, ghost trace0: seq<Step>, a: AttemptId, token: Token)
    returns (s: State, ghost trace: seq<Step>)
    requires Inv(s0) && s0 == Exec(first, trace0) && a in s0.attempts && s0.attempts[a].stage == MustCleanUp(token)
    requires IsPending(s0.row, token)
    ensures Inv(s) && s == Exec(first, trace) && s.row.None? && s.files == s0.files
    ensures a in s.attempts && s.attempts[a].stage == Over(false, false)
  {
    assert AttemptInv(s0, a);
    s, trace := Take(first, s0, trace0, Run(a, CleanUp));
  }

  /** Publish the token of a pending row, or give the row up if no file could be written. */
  method PublishToken(ghost first: State, s0: State, ghost trace0: seq<Step>, a: AttemptId, token: Token,
                      writing: Writing)
    returns (ok: bool, s: State, ghost trace: seq<Step>)
    requires Inv(s0) && s0 == Exec(first, trace0) && a in s0.attempts && s0.attempts[a].stage == MustPublish(token)
    requires IsPending(s0.row, token) && s0.attempts[a].path !in s0.files
    ensures Inv(s) && s == Exec(first, trace)
    ensures ok == writing.Written?
    ensures a in s.attempts && s.attempts[a].stage == Over(false, ok)
    ensures ok ==> Active(s, s0.attempts[a].path)
    ensures writing.InstalledOnly? ==> s.row == s0.row && s.files == s0.files[s0.attempts[a].path := token]
    ensures writing.Occupied? ==> s.row == s0.row && s.files == s0.files
    ensures writing.NotInstalled? ==> s.row.None? && s.files == s0.files
  {
    s, trace := Take(first, s0, trace0, Run(a, Publish(writing)));
    if writing.NotInstalled? {
      s, trace := Withdraw(first, s, trace, a, token);
      return false, s, trace;
    }
    ok := writing.Written?;
  }

  /**
   An enrollment left behind by an earlier attempt that its output file, or the end of its lease,
   lets this one take over.
   */
  predicate Recoverable(s: State, path: Path) {
    || (s.row.None? && path !in s.files)
    || (s.row.Some? && s.row.value.pending &&
        if path in s.files then s.files[path] == s.row.value.mac else s.clock >= (s.row.value.issuedAt + LEASE) * 1000)
    || Active(s, path)
  }

  /**
   Run again after whatever came before, the command succeeds exactly when it can recover and its own
   write goes through; and success means an active credential whose token is in the output file.
   */
  method IssueCredential(s0: State, a: AttemptId, path: Path, writing: Writing)
    returns (ok: bool, s: State, ghost trace: seq<Step>)
    requires Inv(s0) && a !in s0.attempts
    ensures Inv(s) && s == Exec(s0, trace)
    ensures ok ==> Active(s, path)
    ensures ok <==> Recoverable(s0, path) && (path !in s0.files ==> writing.Written?)
  {
    s, trace := Look(s0, a, path);
    if s.attempts[a].stage.Over? { return s.attempts[a].stage.ok, s, trace; }
    if s.attempts[a].stage.MustActivate? {
      s, trace := Take(s0, s, trace, Run(a, Activate));
      return true, s, trace;
    }
    if s.attempts[a].stage.MustDelete? {
      s, trace := Take(s0, s, trace, Run(a, DeleteStale));
    }
    var token := s.issued;
    s, trace := Reserve(s0, s, trace, a);
    ok, s, trace := PublishToken(s0, s, trace, a, token, writing);
  }
}
