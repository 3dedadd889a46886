/** Archiving a dialog and giving it back: the snapshot, the two requests of each direction, and any of
    them failing. */
module Dialog {
  import opened Base
  import opened Tables
  import opened StateStore

  // What Telegram holds for one dialog. The mute time is absent when the dialog was never muted.
  type Settings = Snapshot

  // An answered request took effect. One that raised may still have reached the server.
  datatype Request = Acked | Rejected | AckLost

  /** One dialog: its settings at Telegram, and the snapshot kept for its sender. */
  datatype State = State(remote: Settings, snapshot: Option<Snapshot>)

  /** One call with the fate of each request it may make. */
  datatype Call =
    | Archive(dialogSeen: bool, folder: Request, notify: Request, undoFolder: Request, undoNotify: Request,
              muteUntil: Time, at: Time)
    | Restore(folder: Request, notify: Request, at: Time)

  predicate Muted(s: Settings, t: Time) {
    s.muteUntil.Some? && t < s.muteUntil.value
  }

  /** Indistinguishable from `t` on: same folder, same silence, muted at the same moments. */
  ghost predicate SameFrom(a: Settings, b: Settings, t: Time) {
    a.folder == b.folder && a.silent == b.silent && forall u :: t <= u ==> (Muted(a, u) <==> Muted(b, u))
  }

  function WithFolder(s: Settings, folder: int, request: Request): Settings {
    if request.Rejected? then s else s.(folder := folder)
  }

  function WithNotify(s: Settings, silent: bool, muteUntil: Time, request: Request): Settings {
    if request.Rejected? then s else s.(silent := silent, muteUntil := Some(muteUntil))
  }

  /** What a restore asks for: the snapshot, or Telegram's defaults when there is none. */
  function Target(snapshot: Option<Snapshot>, now: Time): Settings {
    var s := if snapshot.Some? then snapshot.value else Snapshot(0, false, None);
    if s.muteUntil.Some? then s else s.(muteUntil := Some(now))
  }

  function Restored(s: State, folder: Request, notify: Request, now: Time): State {
    var target := Target(s.snapshot, now);
    var moved := WithFolder(s.remote, target.folder, folder);
    if !folder.Acked? then State(moved, s.snapshot)
    else
      State(WithNotify(moved, target.silent, target.muteUntil.value, notify),
            if notify.Acked? then None else s.snapshot)
  }

  /** Behind a saved snapshot. */
  function Hidden(s: State, call: Call): State
    requires call.Archive?
  {
    var moved := State(WithFolder(s.remote, 1, call.folder), s.snapshot);
    if !call.folder.Acked? then moved
    else
      var muted := moved.(remote := WithNotify(moved.remote, true, call.muteUntil, call.notify));
      if call.notify.Acked? then muted else Restored(muted, call.undoFolder, call.undoNotify, call.at)
  }

  predicate GivesUp(s: State, call: Call)
    requires call.Archive?
  {
    s.snapshot.None? && !call.dialogSeen
  }

  function After(s: State, call: Call): State {
    if call.Restore? then Restored(s, call.folder, call.notify, call.at)
    else if GivesUp(s, call) then s
    else Hidden(if s.snapshot.Some? then s else s.(snapshot := Some(s.remote)), call)
  }

  predicate Succeeds(s: State, call: Call) {
    call.folder.Acked? && call.notify.Acked? && (call.Archive? ==> !GivesUp(s, call))
  }

  // ---------------------------------------------------------------- runs

  /** Only Gatekeeper edits the dialog, and it restores only what it archived. */
  ghost predicate Run(original: Settings, start: Time, states: seq<State>, calls: seq<Call>) {
    |states| == |calls| + 1 && states[0] == State(original, None) &&
    (forall i :: 0 <= i < |calls| ==> states[i + 1] == After(states[i], calls[i])) &&
    (forall i :: 0 <= i < |calls| && calls[i].Restore? ==> states[i].snapshot.Some?) &&
    (forall i :: 0 <= i < |calls| ==> TimeOf(start, calls, i) <= calls[i].at)
  }

  function TimeOf(start: Time, calls: seq<Call>, n: nat): Time
    requires n <= |calls|
  {
    if n == 0 then start else calls[n - 1].at
  }

  /** The snapshot is the original, and without one the dialog itself is. */
  ghost predicate Safe(s: State, original: Settings, t: Time) {
    SameFrom(if s.snapshot.Some? then s.snapshot.value else s.remote, original, t)
  }

  lemma RestoreIsSafe(s: State, original: Settings, folder: Request, notify: Request, now: Time)
    requires s.snapshot.Some? && Safe(s, original, now)
    ensures Safe(Restored(s, folder, notify, now), original, now)
    ensures folder.Acked? && notify.Acked? ==>
      Restored(s, folder, notify, now).snapshot.None? &&
      SameFrom(Restored(s, folder, notify, now).remote, original, now)
  {
    var target := Target(s.snapshot, now);
    assert SameFrom(target, s.snapshot.value, now);
    assert folder.Acked? && notify.Acked? ==> Restored(s, folder, notify, now).remote == target;
  }

  lemma CallIsSafe(s: State, original: Settings, call: Call, t: Time)
    requires Safe(s, original, t) && t <= call.at
    requires call.Restore? ==> s.snapshot.Some?
    ensures Safe(After(s, call), original, call.at)
  {
    assert Safe(s, original, call.at);
    if call.Restore? {
      RestoreIsSafe(s, original, call.folder, call.notify, call.at);
    } else if !GivesUp(s, call) {
      var held := if s.snapshot.Some? then s else s.(snapshot := Some(s.remote));
      var moved := State(WithFolder(held.remote, 1, call.folder), held.snapshot);
      if call.folder.Acked? && !call.notify.Acked? {
        var muted := moved.(remote := WithNotify(moved.remote, true, call.muteUntil, call.notify));
        RestoreIsSafe(muted, original, call.undoFolder, call.undoNotify, call.at);
      }
    }
  }

  /** Whatever fails, a held snapshot shows the dialog as it was before the first archive, and a dialog
      without a snapshot is as it was. */
  lemma {:induction false} SnapshotIsOriginal(original: Settings, start: Time, states: seq<State>, calls: seq<Call>,
      n: nat)
    requires Run(original, start, states, calls) && n <= |calls|
    ensures Safe(states[n], original, TimeOf(start, calls, n))
  {
    if n > 0 {
      SnapshotIsOriginal(original, start, states, calls, n - 1);
      CallIsSafe(states[n - 1], original, calls[n - 1], TimeOf(start, calls, n - 1));
    }
  }

  /** A restore that succeeds gives the dialog back as it was and drops the snapshot; one that fails keeps it. */
  lemma RestoreBringsBack(original: Settings, start: Time, states: seq<State>, calls: seq<Call>, n: nat)
    requires Run(original, start, states, calls) && n < |calls| && calls[n].Restore?
    ensures if Succeeds(states[n], calls[n])
            then states[n + 1].snapshot.None? && SameFrom(states[n + 1].remote, original, calls[n].at)
            else states[n + 1].snapshot == states[n].snapshot
  {
    SnapshotIsOriginal(original, start, states, calls, n);
    RestoreIsSafe(states[n], original, calls[n].folder, calls[n].notify, calls[n].at);
  }

  /** A restore without a snapshot asks for the defaults, so it is right exactly for a dialog that had them. */
  lemma RestoreWithoutSnapshot(original: Settings, now: Time)
    ensures SameFrom(Restored(State(original, None), Acked, Acked, now).remote, original, now) <==>
            original.folder == 0 && !original.silent && !Muted(original, now)
  {
    var blind := Restored(State(original, None), Acked, Acked, now).remote;
    assert blind == Snapshot(0, false, Some(now));
    assert !Muted(blind, now);
  }

  // ---------------------------------------------------------------- the calls

  class DialogControl {
    const store: Store
    const k: Key
    var remote: Settings          // at Telegram

    constructor (store: Store, k: Key, remote: Settings)
      ensures this.store == store && this.k == k && this.remote == remote
    {
      this.store, this.k, this.remote := store, k, remote;
    }

    function Current(): State
      reads this, store
    {
      State(remote, if k in store.snapshots then Some(store.snapshots[k]) else None)
    }

    method EditFolder(folder: int, request: Request) returns (ok: bool)
      modifies this
      ensures remote == WithFolder(old(remote), folder, request) && ok == request.Acked?
    {
      if !request.Rejected? {
        remote := remote.(folder := folder);
      }
      ok := request.Acked?;
    }

    method UpdateNotify(silent: bool, muteUntil: Time, request: Request) returns (ok: bool)
      modifies this
      ensures remote == WithNotify(old(remote), silent, muteUntil, request) && ok == request.Acked?
    {
      if !request.Rejected? {
        remote := remote.(silent := silent, muteUntil := Some(muteUntil));
      }
      ok := request.Acked?;
    }

    method ArchiveAndMute(call: Call) returns (ok: bool)
      requires call.Archive?
      modifies this, store
      ensures Current() == After(old(Current()), call)
      ensures ok == Succeeds(old(Current()), call)
      ensures ok ==> remote == Snapshot(1, true, Some(call.muteUntil)) && k in store.snapshots
      // A dialog that is neither held nor seen is left alone; any other is archived exactly if both requests are
      // answered, behind a snapshot of what it was.
      ensures ok <==> (k in old(store.snapshots) || call.dialogSeen) && call.folder.Acked? && call.notify.Acked?
      ensures k !in old(store.snapshots) && !call.dialogSeen ==>
        remote == old(remote) && store.snapshots == old(store.snapshots)
      ensures ok ==>
        store.snapshots[k] == if k in old(store.snapshots) then old(store.snapshots)[k] else old(remote)
      // A dialog that was moved but not muted is given back at once, if that goes through.
      ensures (k in old(store.snapshots) || call.dialogSeen) && call.folder.Acked? && !call.notify.Acked? ==>
        (call.undoFolder.Acked? && call.undoNotify.Acked? ==>
           var held := if k in old(store.snapshots) then old(store.snapshots)[k] else old(remote);
           k !in store.snapshots && remote.folder == held.folder && remote.silent == held.silent &&
           remote.muteUntil == Some(if held.muteUntil.Some? then held.muteUntil.value else call.at))
      ensures store.snapshots - {k} == old(store.snapshots) - {k}
    {
      if k !in store.snapshots {
        if !call.dialogSeen {
          return false;
        }
        store.SaveDialogSnapshot(k, remote);
      }
      var moved := EditFolder(1, call.folder);
      if !moved {
        return false;
      }
      var muted := UpdateNotify(true, call.muteUntil, call.notify);
      if !muted {
        var _ := RestoreFromPending(Restore(call.undoFolder, call.undoNotify, call.at));
        return false;
      }
      ok := true;
    }

    method RestoreFromPending(call: Call) returns (ok: bool)
      requires call.Restore?
      modifies this, store
      ensures Current() == After(old(Current()), call)
      ensures ok == Succeeds(old(Current()), call)
      ensures store.snapshots - {k} == old(store.snapshots) - {k}
      ensures ok <==> call.folder.Acked? && call.notify.Acked?
      ensures if ok then k !in store.snapshots else store.snapshots == old(store.snapshots)
      ensures ok ==>
        var held := if k in old(store.snapshots) then old(store.snapshots)[k] else Snapshot(0, false, None);
        remote.folder == held.folder && remote.silent == held.silent &&
        remote.muteUntil == Some(if held.muteUntil.Some? then held.muteUntil.value else call.at)
    {
      var folder, silent, muteUntil := 0, false, call.at;
      if k in store.snapshots {
        var snapshot := store.snapshots[k];
        folder, silent := snapshot.folder, snapshot.silent;
        if snapshot.muteUntil.Some? {
          muteUntil := snapshot.muteUntil.value;
        }
      }
      var moved := EditFolder(folder, call.folder);
      if !moved {
        return false;
      }
      ok := UpdateNotify(silent, muteUntil, call.notify);
      if ok {
        store.ClearDialogSnapshot(k);
      }
    }
  }
}
