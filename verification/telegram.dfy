/** One handled message's view of Telegram: what it asked for, and how every call may turn out. */
module Telegram {
  import opened Base

  // Telegram numbers messages from one.
  type MessageId = id: int | 1 <= id witness 1

  datatype Sending = Delivered(id: MessageId, at: Time) | NotSent

  // A call that answers true, answers false, or raises.
  datatype Attempt = Done | Refused | Raised

  // The command line runs in another process without sender locks, so its write may land between two
  // steps of a handler; it reads the status first and writes later.
  datatype Race = Nobody | OwnerAllows(at: Time) | OwnerRevokes(at: Time)

  /** How the calls made while one message is handled turn out. */
  datatype Weather = Weather(
    afterRead: Race,              // lands after the sender's row was read and before it is written
    screens: bool,                // false: the detector raises
    send: Sending,
    afterSend: Race,
    archive: Attempt,
    afterArchive: Race,
    activationRuns: bool,         // false: the activating statement raises and is rolled back
    restores: nat -> bool,        // whether the i-th retry is confirmed; false and an exception are alike
    afterRestore: Race)

  const RESTORE_TRIES: nat := 3

  ghost predicate Restores(restores: nat -> bool) {
    exists i: nat :: i < RESTORE_TRIES && restores(i)
  }

  datatype Timer = Timer(expiresAt: Time, grace: int)

  /** Housekeeping tasks, each due at a time of its own. */
  datatype Chore =
    | VerificationMessages(k: Key, ids: set<int>, at: Time)       // delete these messages
    | TestMessages(k: Key, since: Time, at: Time)                 // delete the test sender's messages since then
    | TestReset(k: Key, expectedUpdatedAt: Time, at: Time)        // reset the test sender, if still unchanged

  // A message that was sent: the question of a challenge, or a notice.
  datatype Letter = Letter(to: Key, prompt: bool, at: Time)

  /** The calls made so far on one dialog, and the timers they feed. */
  class Actions {
    var shown: set<int>           // messages sent and not asked to be deleted again
    var sent: seq<Letter>         // every message sent, at the time its slot was claimed
    var archived: bool            // the last confirmed archive was not undone by a confirmed restore
    var timers: map<Key, Timer>
    var deletions: map<nat, Time> // deletion jobs handed to the worker, and when they run
    var chores: seq<Chore>        // in the order they were scheduled

    constructor ()
      ensures shown == {} && sent == [] && !archived && timers == map[] && deletions == map[] && chores == []
    {
      shown, sent, archived, timers, deletions, chores := {}, [], false, map[], map[], [];
    }

    method SendText(k: Key, prompt: bool, send: Sending, now: Time)
      modifies this`shown, this`sent
      ensures shown == old(shown) + (if send.Delivered? then {send.id} else {})
      ensures sent == old(sent) + (if send.Delivered? then [Letter(k, prompt, now)] else [])
    {
      if send.Delivered? {
        shown := shown + {send.id};
        sent := sent + [Letter(k, prompt, now)];
      }
    }

    method DeleteMessage(id: int)
      modifies this`shown
      ensures shown == old(shown) - {id}
    {
      shown := shown - {id};
    }

    method ArchiveAndMute(archive: Attempt)
      modifies this`archived
      ensures archived == (archive.Done? || old(archived))
    {
      if archive.Done? {
        archived := true;
      }
    }

    /** Tries at most three times and stops at the first confirmed restore. */
    method RestoreWithRetry(restores: nat -> bool) returns (restored: bool)
      modifies this`archived
      ensures restored <==> Restores(restores)
      ensures archived == (old(archived) && !restored)
    {
      for i := 0 to RESTORE_TRIES
        invariant forall j: nat :: j < i ==> !restores(j)
        invariant archived == old(archived)
      {
        if restores(i) {
          archived := false;
          return true;
        }
      }
      restored := false;
    }

    method ScheduleTimeout(k: Key, expiresAt: Time, grace: int)
      modifies this`timers
      ensures timers == old(timers)[k := Timer(expiresAt, grace)]
    {
      timers := timers[k := Timer(expiresAt, grace)];
    }

    method CancelTimeout(k: Key)
      modifies this`timers
      ensures timers == old(timers) - {k}
    {
      timers := timers - {k};
    }

    method ScheduleDialogDeletion(job: nat, at: Time)
      modifies this`deletions
      ensures deletions == old(deletions)[job := at]
    {
      deletions := deletions[job := at];
    }

    method Schedule(chore: Chore)
      modifies this`chores
      ensures chores == old(chores) + [chore]
    {
      chores := chores + [chore];
    }
  }
}
