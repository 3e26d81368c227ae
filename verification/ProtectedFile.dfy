/**
 Replacing a protected file only if nobody has touched it. The replacement is written beside the
 file and exchanged with it; then the displaced file is read, and if it is not what was expected the
 two are exchanged back. An editor may put another file at the path at any moment; any call may fail.
 */
module ProtectedFile {
  type Bytes = seq<nat>
  type FileId = nat

  const MAXIMUM_SIZE := 1048576

  datatype Option<T> = None | Some(value: T)
  datatype Outcome = Replaced | Failed(committed: bool)

  /** What the editor does to the path: puts a new file there, or takes away the one that is. */
  datatype Edit = Save(bytes: Bytes) | Unlink

  /**
   What the editor does before each of the calls named; `window` is between the identity check and
   the restoring exchange.
   */
  datatype Edits = Edits(
    read: seq<Edit>, exchange: seq<Edit>, inspect: seq<Edit>, lstat: seq<Edit>, window: seq<Edit>, end: seq<Edit>)

  datatype Faults = Faults(
    read: bool, prepare: bool, exchange: bool, inspect: bool, lstat: bool, restore: bool, restoreSync: bool,
    replaceSync: bool, remove: bool, finish: bool, cleanup: bool)

  /** What stands at the path after some edits, if `bytes` stood there before. */
  function After(edits: seq<Edit>, bytes: Option<Bytes>): Option<Bytes> {
    if edits == [] then bytes
    else match edits[|edits| - 1]
      case Save(b) => Some(b)
      case Unlink => None
  }

  /** What a bounded read makes of a file: too large a one is an error. */
  function Readable(bytes: Option<Bytes>): Option<Bytes> {
    if bytes.Some? && |bytes.value| <= MAXIMUM_SIZE then bytes else None
  }

  /** The first exchange happens: the replacement is legal, the expected bytes are read, and no call fails. */
  predicate Exchanges(original: Option<Bytes>, expected: Bytes, replacement: Bytes, edits: Edits, faults: Faults) {
    && 0 < |replacement| <= MAXIMUM_SIZE
    && !faults.read && Readable(After(edits.read, original)) == Some(expected)
    && !faults.prepare && !faults.exchange && After(edits.exchange, Some(expected)).Some?
  }

  /** The displaced file is read as the expected one, while the replacement is seen to be installed. */
  predicate Confirms(displaced: Option<Bytes>, expected: Bytes, edits: Edits, faults: Faults) {
    edits.inspect == [] && edits.lstat == [] && !faults.lstat && !faults.inspect &&
    Readable(displaced) == Some(expected)
  }

  /**
   The displaced file is not read as the expected one, the replacement is seen to be installed, and
   the two are exchanged back.
   */
  predicate Reverts(displaced: Option<Bytes>, expected: Bytes, replacement: Bytes, edits: Edits, faults: Faults) {
    && edits.inspect == [] && edits.lstat == [] && !faults.lstat
    && (faults.inspect || Readable(displaced) != Some(expected))
    && !faults.restore && After(edits.window, Some(replacement)).Some?
  }

  /** The replacement goes through, from what can be said before the call. */
  predicate Succeeds(original: Option<Bytes>, expected: Bytes, replacement: Bytes, edits: Edits, faults: Faults) {
    && Exchanges(original, expected, replacement, edits, faults)
    && Confirms(After(edits.exchange, Some(expected)), expected, edits, faults)
    && !faults.replaceSync && !faults.remove && !faults.finish
  }

  /** The restoring exchange happens, from what can be said before the call. */
  predicate Restores(original: Option<Bytes>, expected: Bytes, replacement: Bytes, edits: Edits, faults: Faults) {
    && Exchanges(original, expected, replacement, edits, faults)
    && Reverts(After(edits.exchange, Some(expected)), expected, replacement, edits, faults)
  }

  /** How a call ends: what it reports, the bytes it deletes if any, and what stands at the path. */
  datatype Verdict = Verdict(outcome: Outcome, gone: Option<Bytes>, left: Option<Bytes>)

  function Cleaned(bytes: Option<Bytes>, faults: Faults): Option<Bytes> {
    if faults.cleanup then None else bytes
  }

  /** The end of a call whose exchange displaced `displaced`. */
  function Settlement(displaced: Option<Bytes>, expected: Bytes, replacement: Bytes, edits: Edits, faults: Faults)
    : Verdict
  {
    var late := After(edits.window, Some(replacement));
    if edits.inspect != [] || edits.lstat != [] || faults.lstat then
      Verdict(Failed(true), None, After(edits.lstat, After(edits.inspect, Some(replacement))))
    else if faults.inspect || Readable(displaced) != Some(expected) then
      if faults.restore || late.None? then Verdict(Failed(true), None, late)
      else Verdict(Failed(faults.restoreSync), Cleaned(late, faults), displaced)
    else if faults.replaceSync then Verdict(Failed(true), Cleaned(displaced, faults), Some(replacement))
    else if faults.remove then Verdict(Failed(true), None, Some(replacement))
    else
      Verdict(if faults.finish then Failed(true) else Replaced, displaced, After(edits.end, Some(replacement)))
  }

  /** The whole call, from what can be said before it. */
  function Foretold(original: Option<Bytes>, expected: Bytes, replacement: Bytes, edits: Edits, faults: Faults)
    : Verdict
  {
    var current := After(edits.read, original);
    var displaced := After(edits.exchange, current);
    if !(0 < |replacement| <= MAXIMUM_SIZE) then Verdict(Failed(false), None, original)
    else if faults.read || Readable(current) != Some(expected) then Verdict(Failed(false), None, current)
    else if faults.prepare then Verdict(Failed(false), Cleaned(Some(replacement), faults), current)
    else if faults.exchange || displaced.None? then
      Verdict(Failed(false), Cleaned(Some(replacement), faults), displaced)
    else Settlement(displaced, expected, replacement, edits, faults)
  }

  /**
   What the ends of a call have in common. Success leaves the replacement, or what was saved since, and
   deletes exactly the expected bytes. A failure not called committed leaves the path as if nothing had
   been tried, unless the editor was overtaken in the window. Called committed is exactly a failure after
   the exchange that was not undone in full.
   */
  lemma EndsInCommon(original: Option<Bytes>, expected: Bytes, replacement: Bytes, edits: Edits, faults: Faults)
    ensures var v := Foretold(original, expected, replacement, edits, faults);
            && (v.outcome.Replaced? <==> Succeeds(original, expected, replacement, edits, faults))
            && (v.outcome.Replaced? ==> v.gone == Some(expected) && v.left == After(edits.end, Some(replacement)))
            && (v.outcome == Failed(true) <==>
                 && Exchanges(original, expected, replacement, edits, faults)
                 && !Succeeds(original, expected, replacement, edits, faults)
                 && !(Restores(original, expected, replacement, edits, faults) && !faults.restoreSync))
            && (v.outcome == Failed(false) && 0 < |replacement| <= MAXIMUM_SIZE &&
                  !faults.read && Readable(After(edits.read, original)) == Some(expected) && !faults.prepare ==>
                 v.left == After(edits.exchange, Some(expected)))
            && (v.gone.Some? && v.gone !in {Some(expected), Some(replacement)} <==>
                 && Restores(original, expected, replacement, edits, faults) && !faults.cleanup
                 && After(edits.window, Some(replacement)) !in {Some(expected), Some(replacement)})
  {
  }

  class Directory {
    var path: Option<FileId>
    var temp: Option<FileId>
    var content: map<FileId, Bytes>
    var next: FileId
    /** The files removed here, those the editor itself replaced or removed, and what the path would be without us. */
    ghost var deleted: set<FileId>
    ghost var overwritten: set<FileId>
    ghost var untouched: Option<FileId>

    ghost predicate Valid()
      reads this
    {
      && (forall f :: f in content ==> f < next && Accounted(f))
      && (path.Some? ==> path.value in content) && (temp.Some? ==> temp.value in content && path != temp)
    }

    /** No file is simply gone. */
    ghost predicate Accounted(f: FileId)
      reads this
    {
      path == Some(f) || temp == Some(f) || f in deleted || f in overwritten
    }

    constructor (original: Bytes)
      ensures Valid() && path.Some? && untouched == path && temp.None? && deleted == {} &&
                content[path.value] == original
    {
      path, temp, content, next := Some(0), None, map[0 := original], 1;
      deleted, overwritten, untouched := {}, {}, Some(0);
    }

    ghost predicate Extends(before: map<FileId, Bytes>)
      reads this
    {
      forall f :: f in before ==> f in content && content[f] == before[f]
    }

    ghost function At(name: Option<FileId>): Option<Bytes>
      reads this
    {
      if name.Some? && name.value in content then Some(content[name.value]) else None
    }

    method Apply(edit: Edit)
      requires Valid()
      modifies this`path, this`content, this`next, this`overwritten, this`untouched
      ensures Valid() && Extends(old(content)) && old(next) <= next
      ensures path == untouched && (path.Some? ==> path.value >= old(next))
      ensures At(path) == match edit case Save(b) => Some(b) case Unlink => None
    {
      if path.Some? { overwritten := overwritten + {path.value}; }
      match edit
      case Save(b) =>
        content, path, next, untouched := content[next := b], Some(next), next + 1, Some(next);
      case Unlink =>
        path, untouched := None, None;
    }

    method Interfere(edits: seq<Edit>)
      requires Valid()
      modifies this`path, this`content, this`next, this`overwritten, this`untouched
      ensures Valid() && Extends(old(content)) && old(next) <= next
      ensures edits == [] ==> path == old(path) && untouched == old(untouched)
      ensures edits != [] ==> path == untouched && (path.Some? ==> path.value >= old(next))
      ensures At(path) == After(edits, old(At(path)))
    {
      for i := 0 to |edits|
        invariant Valid() && Extends(old(content)) && old(next) <= next
        invariant i == 0 ==> path == old(path) && untouched == old(untouched)
        invariant i > 0 ==> path == untouched && (path.Some? ==> path.value >= old(next))
        invariant At(path) == After(edits[..i], old(At(path)))
      {
        Apply(edits[i]);
      }
      assert edits[..|edits|] == edits;
    }

    /** A new file with the replacement bytes under the private name. */
    method CreateTemp(bytes: Bytes)
      requires Valid() && temp.None?
      modifies this`temp, this`content, this`next
      ensures Valid() && Extends(old(content)) && temp == Some(old(next)) && next == old(next) + 1
      ensures content[old(next)] == bytes
    {
      content, temp, next := content[next := bytes], Some(next), next + 1;
    }

    method Exchange(fails: bool) returns (ok: bool)
      requires Valid()
      modifies this`path, this`temp
      ensures Valid()
      ensures ok <==> !fails && old(path).Some? && old(temp).Some?
      ensures if ok then path == old(temp) && temp == old(path) else path == old(path) && temp == old(temp)
    {
      if fails || path.None? || temp.None? { return false; }
      path, temp := temp, path;
      ok := true;
    }

    method RemoveTemp(fails: bool) returns (ok: bool)
      requires Valid()
      modifies this`temp, this`deleted
      ensures Valid()
      ensures ok <==> !fails && old(temp).Some?
      ensures ok ==> temp.None? && deleted == old(deleted) + {old(temp).value}
      ensures !ok ==> temp == old(temp) && deleted == old(deleted)
    {
      if fails || temp.None? { return false; }
      deleted := deleted + {temp.value};
      temp := None;
      ok := true;
    }

    /** The files deleted since `before` are `gone`, at most one. */
    ghost predicate Deleted(before: set<FileId>, gone: Option<FileId>)
      reads this
    {
      deleted == before + (if gone.Some? then {gone.value} else {}) && (gone.Some? ==> gone.value in content)
    }

    /** The replacement is written under the private name and exchanged with the path. */
    method Install(replacement: Bytes, edits: seq<Edit>, faults: Faults)
      returns (ok: bool, ghost displaced: Option<FileId>, ghost gone: Option<FileId>)
      requires Valid() && temp.None? && untouched == path && path.Some?
      modifies this
      ensures Valid() && Extends(old(content)) && Deleted(old(deleted), gone)
      ensures ok ==> path == Some(old(next)) && At(path) == Some(replacement) && gone.None?
      ensures ok ==> untouched == temp == displaced && temp.Some?
      ensures ok ==> At(temp) == After(edits, old(At(path)))
      ensures !ok ==> path == untouched && At(gone) == Cleaned(Some(replacement), faults)
      ensures !ok ==> At(path) == if faults.prepare then old(At(path)) else After(edits, old(At(path)))
      ensures ok <==> !faults.prepare && !faults.exchange && After(edits, old(At(path))).Some?
    {
      displaced, gone := None, None;
      CreateTemp(replacement);
      ghost var mine := temp;
      var removed;
      if faults.prepare {
        removed := RemoveTemp(faults.cleanup);
        return false, None, if removed then mine else None;
      }
      Interfere(edits);
      displaced := path;
      ok := Exchange(faults.exchange);
      if !ok {
        removed := RemoveTemp(faults.cleanup);
        return false, None, if removed then mine else None;
      }
    }

    /** The displaced file is not the expected one: put it back, unless the editor has moved on. */
    method Restore(mine: FileId, window: seq<Edit>, faults: Faults)
      returns (outcome: Outcome, ghost caught: Option<FileId>, ghost gone: Option<FileId>)
      requires Valid() && path == Some(mine) && temp.Some? && untouched == temp
      modifies this
      ensures Valid() && Extends(old(content)) && Deleted(old(deleted), gone)
      ensures outcome.Failed?
      ensures caught.None? ==> gone.None? && outcome.committed
      ensures caught.Some? ==>
                At(caught) == After(window, old(At(path))) && gone == if faults.cleanup then None else caught
      ensures caught.Some? <==> !faults.restore && After(window, old(At(path))).Some?
      ensures caught.Some? ==> path == old(temp) && (window == [] ==> path == untouched)
      ensures outcome == Failed(caught.None? || faults.restoreSync)
      ensures At(path) == if caught.Some? then old(At(temp)) else After(window, old(At(path)))
    {
      Interfere(window);
      ghost var there := path;
      var restored := Exchange(faults.restore);
      if !restored { return Failed(true), None, None; }
      caught := there;
      var removed := RemoveTemp(faults.cleanup);
      gone := if removed then caught else None;
      outcome := Failed(faults.restoreSync);
    }

    /** The displaced file is the expected one: delete it. */
    method Conclude(edits: seq<Edit>, faults: Faults) returns (outcome: Outcome, ghost gone: Option<FileId>)
      requires Valid() && temp.Some?
      modifies this
      ensures Valid() && Extends(old(content)) && Deleted(old(deleted), gone)
      ensures outcome.Replaced? ==> gone == old(temp) && temp.None?
      ensures outcome != Failed(false)
      ensures Verdict(outcome, At(gone), At(path)) ==
                if faults.replaceSync then Verdict(Failed(true), Cleaned(old(At(temp)), faults), old(At(path)))
                else if faults.remove then Verdict(Failed(true), None, old(At(path)))
                else
                  Verdict(if faults.finish then Failed(true) else Replaced, old(At(temp)), After(edits, old(At(path))))
    {
      gone := temp;
      if faults.replaceSync {
        var cleaned := RemoveTemp(faults.cleanup);
        return Failed(true), if cleaned then gone else None;
      }
      var removed := RemoveTemp(faults.remove);
      if !removed { return Failed(true), None; }
      Interfere(edits);
      outcome := if faults.finish then Failed(true) else Replaced;
    }

    /** Read the displaced file, then see whether the replacement is still the one at the path. */
    method Examine(mine: FileId, edits: Edits, faults: Faults) returns (bytes: Option<Bytes>, same: bool)
      requires Valid() && path == Some(mine) && temp.Some?
      modifies this`path, this`content, this`next, this`overwritten, this`untouched
      ensures Valid() && Extends(old(content))
      ensures bytes == if faults.inspect then None else Readable(old(At(temp)))
      ensures same <==> edits.inspect == [] && edits.lstat == [] && !faults.lstat
      ensures same ==> path == old(path) && untouched == old(untouched)
      ensures At(path) == After(edits.lstat, After(edits.inspect, old(At(path))))
    {
      Interfere(edits.inspect);
      bytes := if faults.inspect then None else Readable(Some(content[temp.value]));
      Interfere(edits.lstat);
      same := !faults.lstat && path == Some(mine);
    }

    /** After the exchange: make sure of what was displaced and what is installed. */
    method Settle(mine: FileId, expected: Bytes, edits: Edits, faults: Faults)
      returns (outcome: Outcome, ghost gone: Option<FileId>)
      requires Valid() && path == Some(mine) && temp.Some? && untouched == temp
      modifies this
      ensures Valid() && Extends(old(content)) && Deleted(old(deleted), gone)
      ensures outcome.Replaced? ==> gone == old(temp) && temp.None?
      ensures outcome == Failed(false) && edits.window == [] ==> path == untouched
      ensures old(At(path).Some?)
      ensures Verdict(outcome, At(gone), At(path)) ==
                old(Settlement(At(temp), expected, At(path).value, edits, faults))
    {
      gone := None;
      var bytes, same := Examine(mine, edits, faults);
      if !same { return Failed(true), None; }
      if bytes != Some(expected) {
        ghost var caught;
        outcome, caught, gone := Restore(mine, edits.window, faults);
        return;
      }
      outcome, gone := Conclude(edits.end, faults);
    }

    /** The call itself. */
    method Attempt(expected: Bytes, replacement: Bytes, edits: Edits, faults: Faults)
      returns (outcome: Outcome, ghost displaced: Option<FileId>, ghost gone: Option<FileId>)
      requires Valid() && temp.None? && untouched == path
      modifies this
      ensures Valid() && Extends(old(content)) && Deleted(old(deleted), gone)
      ensures Verdict(outcome, At(gone), At(path)) == old(Foretold(At(path), expected, replacement, edits, faults))
      ensures outcome.Replaced? ==> displaced.Some? && gone == displaced && temp.None?
      ensures outcome == Failed(false) && edits.window == [] ==> path == untouched
    {
      displaced, gone := None, None;
      if |replacement| == 0 || |replacement| > MAXIMUM_SIZE { return Failed(false), None, None; }
      Interfere(edits.read);
      if faults.read || path.None? || Readable(Some(content[path.value])) != Some(expected) {
        return Failed(false), None, None;
      }
      var mine := next;
      var exchanged;
      exchanged, displaced, gone := Install(replacement, edits.exchange, faults);
      if !exchanged { return Failed(false), None, gone; }
      outcome, gone := Settle(mine, expected, edits, faults);
    }

    /**
     `displaced` is the file the exchange took from the path and `gone` the one file deleted, each if it
     happened. What happens is told from what is at the path, the edits and the faults alone.
     */
    method Replace(expected: Bytes, replacement: Bytes, edits: Edits, faults: Faults)
      returns (outcome: Outcome, ghost displaced: Option<FileId>, ghost gone: Option<FileId>)
      requires Valid() && temp.None? && untouched == path
      modifies this
      ensures Valid() && Extends(old(content)) && Deleted(old(deleted), gone)
      ensures Verdict(outcome, At(gone), At(path)) == old(Foretold(At(path), expected, replacement, edits, faults))
      // It succeeds exactly when it should, and then exactly the expected bytes were displaced and they alone are gone.
      ensures outcome.Replaced? <==> Succeeds(old(At(path)), expected, replacement, edits, faults)
      ensures outcome.Replaced? ==>
                displaced.Some? && At(displaced) == Some(expected) && gone == displaced && temp.None?
      // It deletes a file that is neither the original nor its own exactly when it restores over one
      // saved in the window.
      ensures gone.Some? && At(gone) !in {Some(expected), Some(replacement)} <==>
                && Restores(old(At(path)), expected, replacement, edits, faults) && !faults.cleanup
                && After(edits.window, Some(replacement)) !in {Some(expected), Some(replacement)}
      ensures gone.Some? && Restores(old(At(path)), expected, replacement, edits, faults) ==>
                At(gone) == After(edits.window, Some(replacement))
      ensures Restores(old(At(path)), expected, replacement, edits, faults) ==>
                At(path) == After(edits.exchange, Some(expected))
      // A failure that does not claim to be committed leaves the path as the editor has it.
      ensures outcome == Failed(false) && edits.window == [] ==> path == untouched
    {
      EndsInCommon(At(path), expected, replacement, edits, faults);
      outcome, displaced, gone := Attempt(expected, replacement, edits, faults);
    }
  }

  /**
   The window is real. The file is edited before the exchange, so the exchange is undone; it is edited
   once more between the identity check and the restoring exchange, and that edit is deleted.
   */
  method LateEditDeleted(original: Bytes, replacement: Bytes, edit: Bytes, late: Bytes)
    returns (d: Directory, ghost gone: Option<FileId>)
    requires |original| <= MAXIMUM_SIZE && 0 < |replacement| <= MAXIMUM_SIZE
    requires edit != original && late != original && late != replacement
    ensures d.At(d.path) == Some(edit) && gone.Some? && gone.value in d.deleted && d.At(gone) == Some(late)
  {
    var smooth := Faults(false, false, false, false, false, false, false, false, false, false, false);
    d := new Directory(original);
    var edits := Edits([], [Save(edit)], [], [], [Save(late)], []);
    var outcome;
    ghost var displaced;
    outcome, displaced, gone := d.Replace(original, replacement, edits, smooth);
    assert Restores(Some(original), original, replacement, edits, smooth);
  }
}
