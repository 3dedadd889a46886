/** The message service: delivering, recovering, answering and ending challenges. */
module Service {
  import opened Base
  import opened Tables
  import opened StoreSpec
  import opened StateStore
  import opened Telegram
  import opened ServiceSpec
  import Outbound
  import Spending
  import Campaign
  import Policy
  import Rules

  // A reply to a challenge, and how its handling turned out.
  datatype Reply = Reply(message: Incoming, outcome: Outcome, restores: nat -> bool, notice: Sending, now: Time,
                         deletions: map<nat, Time>, deletions': map<nat, Time>)

  class GatekeeperService {
    const store: Store
    const quota: Outbound.Quota
    const ttl: nat
    const maxAttempts: nat
    const testKey: Option<Key>
    const reviewDays: nat
    const caseDays: nat
    // Turns a review reference into a control identity; None when the reference does not open.
    const control: Blob -> Option<Blob>
    const reader: Rules.Reader
    const denylist: set<Rules.Domain>
    // The fingerprint of the promotional template that a message and its signals make up, if any.
    const fingerprint: (Rules.Facts, seq<Policy.Signal>) -> Option<string>

    constructor (store: Store, quota: Outbound.Quota, ttl: nat, maxAttempts: nat, testKey: Option<Key>,
                 reviewDays: nat, caseDays: nat, control: Blob -> Option<Blob>, reader: Rules.Reader,
                 denylist: set<Rules.Domain>, fingerprint: (Rules.Facts, seq<Policy.Signal>) -> Option<string>)
      ensures this.store == store && this.quota == quota && this.ttl == ttl && this.maxAttempts == maxAttempts
      ensures this.testKey == testKey && this.control == control
      ensures this.reader == reader && this.denylist == denylist && this.fingerprint == fingerprint
      ensures this.reviewDays == (if reviewDays < 7 then reviewDays else 7)
      ensures this.caseDays == (if caseDays < 30 then caseDays else 30)
    {
      this.store, this.quota, this.ttl, this.maxAttempts := store, quota, ttl, maxAttempts;
      this.testKey, this.control := testKey, control;
      this.reader, this.denylist, this.fingerprint := reader, denylist, fingerprint;
      this.reviewDays := if reviewDays < 7 then reviewDays else 7;
      this.caseDays := if caseDays < 30 then caseDays else 30;
    }

    predicate IsTest(k: Key) {
      testKey == Some(k)
    }

    function RestrictionReference(reference: Option<Blob>): Option<Blob> {
      if reference.None? then None else control(reference.value)
    }

    /** Removes what an attempt left behind: its message, and its row unless the row moved on. */
    method Withdraw(k: Key, message: Option<int>, actions: Actions, now: Time)
      modifies store, actions`shown
      ensures OnlyTouches(old(store.Contents()), store.Contents(), k)
      ensures store.Contents() == StoreSpec.ResetIncomplete(old(store.Contents()), k, now)
      ensures actions.shown == old(actions.shown) - (if message.Some? then {message.value} else {})
    {
      if message.Some? {
        actions.DeleteMessage(message.value);
      }
      var _ := store.ResetIncompleteChallenge(k, now);
    }

    // -------------------------------------------------------------- issuing

    predicate SlotFree(db: Db, k: Key, challenge: bool, now: Time) {
      IsTest(k) || Outbound.Free(quota, OutboundSince(db.events.outbound, now - HOUR), k, challenge, now)
    }

    /** The dedicated test sender needs no slot. */
    method ClaimSlot(k: Key, challenge: bool, now: Time) returns (free: bool)
      requires Outbound.Valid(quota)
      modifies store`events
      ensures free == SlotFree(old(store.Contents()), k, challenge, now)
      ensures store.events.(outbound := old(store.events).outbound) == old(store.events)
      ensures if IsTest(k) then free && store.events == old(store.events)
              else Spending.Claims(quota, k, challenge, free, old(store.events).outbound, store.events.outbound, now)
    {
      free := IsTest(k);
      if !free {
        var allowed := store.ClaimOutboundSlot(quota, k, challenge, now);
        free := allowed.value;
      }
    }

    /** What a handler spends: a claim of the given kind, and the letter if it got through. */
    ghost predicate Spends(k: Key, challenge: bool, events: Events, events': Events, sent: seq<Letter>,
                           sent': seq<Letter>, now: Time)
    {
      Spending.Spends(quota, IsTest(k), k, challenge, events.outbound, events'.outbound, sent, sent', now)
    }

    ghost predicate NoticesOnly(k: Key, events: Events, events': Events, sent: seq<Letter>, sent': seq<Letter>,
                                now: Time)
    {
      (events'.outbound == events.outbound && sent' == sent) || Spends(k, false, events, events', sent, sent', now)
    }

    /** At most one claim, at most one letter on it; a question costs one, whether it was sent or refused. */
    ghost predicate Charged(k: Key, outcome: Outcome, events: Events, events': Events, sent: seq<Letter>,
                            sent': seq<Letter>, now: Time)
    {
      Spending.Visits(quota, IsTest(k), k, events.outbound, events'.outbound, sent, sent', now) &&
      (outcome.Started? || outcome.QuarantinedRateLimited? ==>
         Spends(k, true, events, events', sent, sent', now) &&
         sent' == sent + (if outcome.Started? then [Letter(k, true, now)] else []))
    }

    /** Keeps the evidence for the owner; best effort, so there may be no sealed envelope. */
    method Capture(k: Key, reference: Option<Blob>, envelope: Option<Blob>, reason: string, now: Time)
      modifies store
      ensures OnlyTouches(old(store.Contents()), store.Contents(), k)
      ensures store.rows == old(store.rows) && store.events == old(store.events)
      ensures store.jobs == old(store.jobs) && store.nextJob == old(store.nextJob)
    {
      if envelope.Some? && !IsTest(k) {
        store.SaveEnforcementReview(k, Evidence(reference, envelope.value, reason, now, now, now + caseDays * DAY));
      }
    }

    /** How an issued challenge leaves the sender: as its delivery ends or, without a slot, as the archive
        without a question leaves it. */
    ghost predicate Issued(db: Db, db': Db, k: Key, reference: Option<Blob>, w: Weather, now: Time) {
      if SlotFree(db, k, true, now) then DeliveryEnds(db', k, w, ttl)
      else
        db'.rows == Unasked(db, k, RestrictionReference(reference), w, now).rows &&
        (!w.archive.Done? ==> k !in db'.evidence) && (reference.Some? ==> HasPendingReview(db'.reviews, k))
    }

    /** What the owner decides while a call of the issue is awaited - with a slot the row was begun by then - stands,
        exactly unless there was no slot and the archive was confirmed. */
    lemma DecisionSurvives(db: Db, db': Db, k: Key, reference: Option<Blob>, w: Weather, now: Time)
      requires Issued(db, db', k, reference, w, now)
      requires !LastWord(SlotFree(db, k, true, now), w).Nobody?
      ensures Overtaken(db', k, LastWord(SlotFree(db, k, true, now), w)) <==>
              SlotFree(db, k, true, now) || !w.archive.Done?
    {
      if !SlotFree(db, k, true, now) {
        DecisionSurvivesUnasked(db, k, RestrictionReference(reference), w, now);
      }
    }

    method IssueChallenge(k: Key, reference: Option<Blob>, envelope: Option<Blob>, challenge: Challenge,
                          profile: Profile, actions: Actions, w: Weather, now: Time)
      returns (outcome: Outcome)
      requires Outbound.Valid(quota)
      modifies store, actions`shown, actions`sent, actions`archived, actions`timers
      ensures OnlyTouches(old(store.Contents()), store.Contents(), k)
      // One slot is claimed, and the question is sent exactly if it was granted and gets through.
      ensures Spends(k, true, old(store.events), store.events, old(actions.sent), actions.sent, now)
      ensures actions.sent == old(actions.sent) +
        (if SlotFree(old(store.Contents()), k, true, now) && w.send.Delivered? then [Letter(k, true, now)] else [])
      // With a free slot the challenge runs, is abandoned, or is gone; or the owner decided meanwhile.
      // Without one, only a confirmed archive restricts the sender.
      ensures Issued(old(store.Contents()), store.Contents(), k, reference, w, now)
      ensures outcome == IssueOutcome(SlotFree(old(store.Contents()), k, true, now), w)
      // A running challenge asks this question, and its timer is set for exactly the stored expiry.
      ensures outcome.Started? ==>
        k in store.rows && Asks(store.rows[k], challenge, reference, profile) &&
        w.send.Delivered? && k in actions.timers && actions.timers[k] == Timer(w.send.at + ttl, 30)
      ensures actions.timers - {k} == old(actions.timers) - {k}
      // A message stays only with a challenge that runs or was abandoned.
      ensures SlotFree(old(store.Contents()), k, true, now) && w.send.Delivered? ==>
        actions.shown == if Succeeds(w) || GivesUp(w) then
          old(actions.shown) + {w.send.id} else old(actions.shown) - {w.send.id}
      ensures !SlotFree(old(store.Contents()), k, true, now) ==> actions.shown == old(actions.shown)
    {
      Capture(k, reference, envelope, "challenge_pending", now);
      var free := ClaimSlot(k, true, now);
      if !free {
        SameRowsUnasked(old(store.Contents()), store.Contents(), k, RestrictionReference(reference), w, now);
        outcome := RateLimitFallback(k, reference, actions, w, now);
        return;
      }
      outcome := Deliver(k, challenge, reference, profile, actions, w, now);
    }

    /** No outbound slot: archive without asking, and leave the case to the owner. */
    method RateLimitFallback(k: Key, reference: Option<Blob>, actions: Actions, w: Weather, now: Time)
      returns (outcome: Outcome)
      modifies store, actions`archived
      ensures outcome == if w.archive.Done? then QuarantinedRateLimited else FailSafe
      ensures OnlyTouches(old(store.Contents()), store.Contents(), k)
      ensures store.rows == Unasked(old(store.Contents()), k, RestrictionReference(reference), w, now).rows
      ensures !w.archive.Done? ==> k !in store.evidence
      ensures reference.Some? ==> HasPendingReview(store.reviews, k)
      ensures reference.None? ==> store.reviews == old(store.reviews)
      ensures store.events == old(store.events)
    {
      actions.ArchiveAndMute(w.archive);
      Interfere(store, k, w.afterArchive);
      UnaskedFrom(old(store.Contents()), store.Contents(), k, RestrictionReference(reference), w, now);
      if w.archive.Done? {
        Confine(k, RestrictionReference(reference), reference, "challenge_unavailable", now);
        AskOwner(k, reference, "challenge_unavailable", now);
        outcome := QuarantinedRateLimited;
      } else {
        store.DeleteEnforcementReview(k);
        AskOwner(k, reference, "challenge_unavailable_action_failed", now);
        outcome := FailSafe;
      }
    }

    /** Quarantines the sender and puts its evidence under a final reason. */
    method Confine(k: Key, identity: Option<Blob>, reference: Option<Blob>, reason: string, now: Time)
      modifies store
      ensures OnlyTouches(old(store.Contents()), store.Contents(), k)
      ensures store.rows == old(StoreSpec.Quarantine(store.Contents(), k, identity, now)).rows
      ensures store.reviews == old(store.reviews) && store.jobs == old(store.jobs)
      ensures store.events == old(store.events)
    {
      store.Quarantine(k, identity, now);
      store.ActivateEnforcementReview(k, reason, now + caseDays * DAY, reference, now);
    }

    /** Puts the case in the owner's queue, which needs a reference. */
    method AskOwner(k: Key, reference: Option<Blob>, classification: string, now: Time)
      modifies store
      ensures OnlyTouches(old(store.Contents()), store.Contents(), k)
      ensures store.rows == old(store.rows) && store.evidence == old(store.evidence)
      ensures store.jobs == old(store.jobs) && store.nextJob == old(store.nextJob) && store.events == old(store.events)
      ensures reference.Some? ==> HasPendingReview(store.reviews, k)
      ensures reference.None? ==> store.reviews == old(store.reviews)
    {
      if reference.Some? {
        store.EnqueueReview(k, reference.value, classification, now + reviewDays * DAY, now);
      }
    }

    /** From the prompt to the end of the delivery. */
    method Deliver(k: Key, challenge: Challenge, reference: Option<Blob>, profile: Profile,
                   actions: Actions, w: Weather, now: Time)
      returns (outcome: Outcome)
      modifies store, actions`shown, actions`sent, actions`archived, actions`timers
      ensures OnlyTouches(old(store.Contents()), store.Contents(), k)
      ensures DeliveryEnds(store.Contents(), k, w, ttl)
      ensures store.events.outbound == old(store.events).outbound
      ensures actions.sent == old(actions.sent) + (if w.send.Delivered? then [Letter(k, true, now)] else [])
      ensures Succeeds(w) ==> k in store.rows && Asks(store.rows[k], challenge, reference, profile)
      ensures outcome == if Succeeds(w) then Started else FailSafe
      ensures w.send.NotSent? ==> actions.shown == old(actions.shown)
      ensures w.send.Delivered? ==>
        actions.shown == if Succeeds(w) || GivesUp(w) then
          old(actions.shown) + {w.send.id} else old(actions.shown) - {w.send.id}
      ensures w.send.Delivered? && w.afterSend.Nobody? && w.archive.Done? ==>
        actions.archived == (Succeeds(w) || GivesUp(w))
      ensures actions.timers - {k} == old(actions.timers) - {k}
      ensures Succeeds(w) ==> k in actions.timers && actions.timers[k] == Timer(w.send.at + ttl, 30)
    {
      Present(k, challenge, reference, profile, actions, w, now);
      outcome := Proceed(k, actions, w, now);
    }

    /** After the attempt to send. */
    method Proceed(k: Key, actions: Actions, w: Weather, now: Time) returns (outcome: Outcome)
      requires if w.afterSend.Nobody? then HasStatus(store.Contents(), k, ChallengeIssuing)
               else Overtaken(store.Contents(), k, w.afterSend)
      modifies store, actions`shown, actions`archived, actions`timers
      ensures OnlyTouches(old(store.Contents()), store.Contents(), k)
      ensures DeliveryEnds(store.Contents(), k, w, ttl) && store.events == old(store.events)
      ensures Succeeds(w) ==> k in old(store.rows) && k in store.rows && SameQuestion(old(store.rows)[k], store.rows[k])
      ensures outcome == if Succeeds(w) then Started else FailSafe
      ensures w.send.NotSent? ==> actions.shown == old(actions.shown)
      ensures w.send.Delivered? ==>
        actions.shown == if Succeeds(w) || GivesUp(w) then old(actions.shown) else old(actions.shown) - {w.send.id}
      ensures w.send.Delivered? && w.afterSend.Nobody? && w.archive.Done? ==>
        actions.archived == (Succeeds(w) || GivesUp(w))
      ensures actions.timers - {k} == old(actions.timers) - {k}
      ensures Succeeds(w) ==> k in actions.timers && actions.timers[k] == Timer(w.send.at + ttl, 30)
    {
      if w.send.NotSent? {
        WithdrawnAs(store.Contents(), k, now);
        outcome := RollBack(k, false, None, actions, w, now);
        return;
      }
      BoundAs(store.Contents(), k, w.send.id, w.send.at + ttl, w.send.at, now);
      var bound := Bind(k, w.send.id, w.send.at + ttl, actions, w.send.at, now);
      if !bound {
        return FailSafe;
      }
      EnforcedEnds(store.Contents(), k, w, now);
      outcome := Enforce(k, w.send.id, w.send.at + ttl, actions, w, now);
    }

    /** Writes the challenge down, then sends it. */
    method Present(k: Key, challenge: Challenge, reference: Option<Blob>, profile: Profile,
                   actions: Actions, w: Weather, now: Time)
      modifies store, actions`shown, actions`sent
      ensures OnlyTouches(old(store.Contents()), store.Contents(), k)
      ensures store.events.outbound == old(store.events).outbound
      ensures actions.sent == old(actions.sent) + (if w.send.Delivered? then [Letter(k, true, now)] else [])
      ensures store.Contents() == Presented(old(store.Contents()), k, challenge, reference, profile, w.send,
        w.afterSend, ttl, now)
      ensures w.afterSend.Nobody? ==> k in store.rows && Asks(store.rows[k], challenge, reference, profile)
      ensures if w.afterSend.Nobody? then HasStatus(store.Contents(), k, ChallengeIssuing)
              else Overtaken(store.Contents(), k, w.afterSend)
      ensures actions.shown == old(actions.shown) + (if w.send.Delivered? then {w.send.id} else {})
    {
      PresentedAs(store.Contents(), k, challenge, reference, profile, w.send, w.afterSend, ttl, now);
      store.BeginChallengeIssue(k, challenge.id, challenge.digest, now + ttl, challenge.prompt, reference, profile,
        now);
      actions.SendText(k, true, w.send, now);
      Interfere(store, k, w.afterSend);
      if w.send.Delivered? {
        store.RecordAutomatedMessage(k, w.send.id, w.send.at);
      }
    }

    /** Restarts the deadline and ties the row to the message; an overtaken row gives the message up. */
    method Bind(k: Key, id: int, expiresAt: Time, actions: Actions, sentAt: Time, now: Time) returns (bound: bool)
      modifies store, actions`shown
      ensures OnlyTouches(old(store.Contents()), store.Contents(), k)
      ensures bound == HasStatus(old(store.Contents()), k, ChallengeIssuing)
      ensures store.Contents() == Bound(old(store.Contents()), k, id, expiresAt, sentAt, now)
      ensures store.events == old(store.events)
      ensures bound ==> k in store.rows && SameQuestion(old(store.rows)[k], store.rows[k])
      ensures bound ==> HasStatus(store.Contents(), k, ChallengeArchiving)
      ensures actions.shown == old(actions.shown) - (if bound then {} else {id})
    {
      bound := store.RefreshChallengeExpiry(k, expiresAt, sentAt);
      if bound {
        bound := store.BindChallengeMessage(k, id, now);
      }
      if !bound {
        Withdraw(k, Some(id), actions, now);
      }
    }

    /** Archives the dialog and starts the clock. */
    method Enforce(k: Key, id: int, expiresAt: Time, actions: Actions, w: Weather, now: Time) returns (outcome: Outcome)
      requires HasStatus(store.Contents(), k, ChallengeArchiving)
      modifies store, actions`shown, actions`archived, actions`timers
      ensures OnlyTouches(old(store.Contents()), store.Contents(), k)
      ensures store.Contents() == Enforced(Struck(old(store.Contents()), k, w.afterArchive), k, w, now)
      ensures store.events == old(store.events)
      ensures outcome == if w.archive.Done? && w.activationRuns && w.afterArchive.Nobody? then Started else FailSafe
      ensures outcome.Started? ==> k in store.rows && SameQuestion(old(store.rows)[k], store.rows[k])
      ensures actions.shown == if outcome.Started? || Abandons(w) then old(actions.shown) else old(actions.shown) - {id}
      ensures actions.archived == if w.archive.Done? then outcome.Started? || Abandons(w) else old(actions.archived)
      ensures actions.timers - {k} == old(actions.timers) - {k}
      ensures outcome.Started? ==> k in actions.timers && actions.timers[k] == Timer(expiresAt, GRACE)
    {
      actions.ArchiveAndMute(w.archive);
      Interfere(store, k, w.afterArchive);
      if w.archive.Raised? {
        outcome := RollBack(k, false, Some(id), actions, w, now);
        return;
      }
      if w.archive.Refused? {
        Withdraw(k, Some(id), actions, now);
        actions.CancelTimeout(k);
        return FailSafe;
      }
      outcome := Start(k, id, expiresAt, actions, w, now);
    }

    /** Behind a confirmed archive: starts the clock, or takes the archive back. */
    method Start(k: Key, id: int, expiresAt: Time, actions: Actions, w: Weather, now: Time) returns (outcome: Outcome)
      requires actions.archived
      modifies store, actions`shown, actions`archived, actions`timers
      ensures OnlyTouches(old(store.Contents()), store.Contents(), k) && store.events == old(store.events)
      ensures store.Contents() == AfterArchive(old(store.Contents()), k, w, now)
      ensures outcome == if Activates(old(store.Contents()), k, w) then Started else FailSafe
      ensures outcome.Started? ==> k in old(store.rows) && k in store.rows && SameQuestion(old(store.rows)[k],
        store.rows[k])
      ensures actions.archived == (outcome.Started? || !Restores(w.restores))
      ensures actions.shown == if actions.archived then old(actions.shown) else old(actions.shown) - {id}
      ensures actions.timers - {k} == old(actions.timers) - {k}
      ensures outcome.Started? ==> k in actions.timers && actions.timers[k] == Timer(expiresAt, GRACE)
    {
      if !w.activationRuns {
        outcome := RollBack(k, true, Some(id), actions, w, now);
        return;
      }
      var activated := store.ActivateChallenge(k, now);
      if !activated {
        var restored := actions.RestoreWithRetry(w.restores);
        Interfere(store, k, w.afterRestore);
        if restored {
          Withdraw(k, Some(id), actions, now);
        }
        return FailSafe;
      }
      actions.ScheduleTimeout(k, expiresAt, GRACE);
      outcome := Started;
    }

    /** The handler of anything raised during a delivery. */
    method RollBack(k: Key, archiveConfirmed: bool, message: Option<int>, actions: Actions, w: Weather, now: Time)
      returns (outcome: Outcome)
      modifies store, actions`shown, actions`archived, actions`timers
      ensures OnlyTouches(old(store.Contents()), store.Contents(), k)
      ensures outcome == FailSafe && store.events == old(store.events)
      ensures store.Contents() == RolledBack(old(store.Contents()), k, archiveConfirmed, w, now)
      ensures actions.timers == old(actions.timers) - {k}
      ensures var withdrawn := !archiveConfirmed || Restores(w.restores);
              actions.shown == old(actions.shown) - (if withdrawn && message.Some? then {message.value} else {})
      ensures actions.archived == (old(actions.archived) && !(archiveConfirmed && Restores(w.restores)))
    {
      var restored := false;
      if archiveConfirmed {
        restored := actions.RestoreWithRetry(w.restores);
        Interfere(store, k, w.afterRestore);
      }
      if !archiveConfirmed || restored {
        Withdraw(k, message, actions, now);
      }
      actions.CancelTimeout(k);
      outcome := FailSafe;
    }

    // -------------------------------------------------------------- recovery at start-up

    ghost predicate Gone(actions: Actions, message: Option<int>)
      reads actions
    {
      message.Some? ==> message.value !in actions.shown
    }

    /** Neither the message that was found, nor the one that was just sent, nor that of an archiving row stays. */
    ghost predicate TakenBack(actions: Actions, row: Row, recovered: Option<int>, w: Weather, now: Time)
      reads actions
    {
      (row.status.ChallengeIssuing? && recovered.Some? && recovered.value != 0 ==>
         recovered.value !in actions.shown) &&
      (row.status.ChallengeArchiving? && row.messageId.Some? && (recovered.None? || !Expired(row, now)) ==>
         row.messageId.value !in actions.shown) &&
      (Resends(row, recovered) && !Expired(row, now) && w.send.Delivered? ==> w.send.id !in actions.shown)
    }

    /** Takes up a challenge that a stop of the program cut short. */
    method RecoverIncompleteChallenge(k: Key, recovered: Option<int>, actions: Actions, w: Weather, now: Time)
      returns (recovery: Recovery)
      requires now > 0
      modifies store, actions`shown, actions`sent, actions`archived, actions`timers
      ensures OnlyTouches(old(store.Contents()), store.Contents(), k)
      ensures !Starting(old(store.Contents()), k) ==>
        recovery.NotActivated? && store.Contents() == old(store.Contents())
      ensures Starting(old(store.Contents()), k) ==>
        RecoveryEnds(store.Contents(), k, old(store.Contents()).rows[k], recovery, recovered, w, ttl, now)
      // What is overdue is never sent or started again.
      ensures var row := old(Tables.Sender(store.Contents(), k));
        ChallengeStarting(row.status) && (row.expiresAt.None? || row.expiresAt.value <= now) ==>
          recovery.NotActivated? && Cleared(store.Contents(), k)
      // The prompt is sent once more exactly if its message cannot be found, and no slot is claimed for it.
      ensures store.events.outbound == old(store.events).outbound
      ensures var row := old(Tables.Sender(store.Contents(), k));
        actions.sent == old(actions.sent) +
          (if row.status.ChallengeIssuing? && row.expiresAt.Some? && row.expiresAt.value > now && recovered.None? &&
              row.prompt.Some? && row.prompt.value != "" && w.send.Delivered? then [Letter(k, true, now)] else [])
      // A recovery that fails takes its message back.
      ensures Starting(old(store.Contents()), k) && recovery.NotActivated? && ResumeRace(w).Nobody? ==>
        Gone(actions, MessageOf(old(store.Contents()).rows[k], recovered, w, now)) &&
        TakenBack(actions, old(store.Contents()).rows[k], recovered, w, now)
      // A recovered challenge runs with a timer for exactly the stored expiry.
      ensures recovery.Activated? ==>
        k in old(store.rows) && k in store.rows && SameQuestion(old(store.rows)[k], store.rows[k])
      ensures recovery.Activated? ==>
        k in store.rows && k in actions.timers && store.rows[k].expiresAt == Some(actions.timers[k].expiresAt) &&
        actions.timers[k].grace == 30
      ensures actions.timers - {k} == old(actions.timers) - {k}
    {
      var state := store.Sender(k);
      if !ChallengeStarting(state.status) {
        return NotActivated;
      }
      WithdrawnAs(store.Contents(), k, now);
      if Hopeless(state, recovered, now) {
        GiveUp(k, state, recovered, actions, w, now);
        return NotActivated;
      }
      recovery := Redeliver(k, state, recovered, actions, w, now);
    }

    /** Past its deadline, or with no text left to send. */
    method GiveUp(k: Key, state: Row, recovered: Option<int>, actions: Actions, w: Weather, now: Time)
      requires ChallengeStarting(state.status) && Hopeless(state, recovered, now)
      modifies store, actions`shown
      ensures OnlyTouches(old(store.Contents()), store.Contents(), k)
      ensures Gone(actions, MessageOf(state, recovered, w, now))
      ensures store.Contents() == StoreSpec.ResetIncomplete(old(store.Contents()), k, now)
    {
      var stale: Option<int> := None;
      if state.expiresAt.None? || state.expiresAt.value <= now {
        stale := if recovered.Some? && recovered.value != 0 then recovered else state.messageId;
      }
      Withdraw(k, stale, actions, now);
    }

    method Redeliver(k: Key, state: Row, recovered: Option<int>, actions: Actions, w: Weather, now: Time)
      returns (recovery: Recovery)
      requires now > 0 && Starting(store.Contents(), k) && state == store.rows[k] && !Hopeless(state, recovered, now)
      modifies store, actions`shown, actions`sent, actions`archived, actions`timers
      ensures store.events.outbound == old(store.events).outbound
      ensures actions.sent == old(actions.sent) +
        (if Resends(state, recovered) && w.send.Delivered? then [Letter(k, true, now)] else [])
      ensures OnlyTouches(old(store.Contents()), store.Contents(), k)
      ensures RecoveryEnds(store.Contents(), k, state, recovery, recovered, w, ttl, now)
      ensures recovery.NotActivated? && ResumeRace(w).Nobody? ==> Gone(actions, MessageOf(state, recovered, w, now))
      ensures recovery.Activated? ==>
        k in old(store.rows) && k in store.rows && SameQuestion(old(store.rows)[k], store.rows[k])
      ensures recovery.Activated? ==>
        k in store.rows && k in actions.timers && store.rows[k].expiresAt == Some(actions.timers[k].expiresAt) &&
        actions.timers[k].grace == 30
      ensures actions.timers - {k} == old(actions.timers) - {k}
    {
      if state.status.ChallengeArchiving? {
        ResumedEnds(store.Contents(), k, w, now);
        recovery := Resume(k, state.messageId, actions, w, now);
        return;
      }
      if recovered.Some? {
        recovery := Rebind(k, recovered.value, actions, w, now);
        return;
      }
      ghost var before := store.Contents();
      StruckAs(before, k, w.afterSend);
      Resend(k, actions, w, now);
      if w.send.NotSent? {
        WithdrawnAs(store.Contents(), k, now);
        Withdraw(k, None, actions, now);
        return NotActivated;
      }
      recovery := Rebind(k, w.send.id, actions, w, now);
    }

    /** Ties the row to the message, unless it moved on, and goes on as from there. */
    method Rebind(k: Key, id: int, actions: Actions, w: Weather, now: Time) returns (recovery: Recovery)
      requires now > 0
      modifies store, actions`shown, actions`archived, actions`timers
      ensures OnlyTouches(old(store.Contents()), store.Contents(), k)
      ensures !Starting(old(store.Contents()), k) ==> recovery.NotActivated? && store.rows == old(store.rows)
      ensures store.events.outbound == old(store.events).outbound
      ensures HasStatus(old(store.Contents()), k, ChallengeIssuing) ==>
        ResumptionEnds(store.Contents(), k, Some(id), Some(now + ttl), recovery, w)
      ensures recovery.NotActivated? && ResumeRace(w).Nobody? ==> id !in actions.shown
      ensures recovery.Activated? ==>
        k in old(store.rows) && k in store.rows && SameQuestion(old(store.rows)[k], store.rows[k])
      ensures recovery.Activated? ==>
        k in store.rows && k in actions.timers && store.rows[k].expiresAt == Some(actions.timers[k].expiresAt) &&
        actions.timers[k].grace == 30
      ensures actions.timers - {k} == old(actions.timers) - {k}
    {
      store.RecordAutomatedMessage(k, id, now);
      BoundAs(store.Contents(), k, id, now + ttl, now, now);
      var bound := Bind(k, id, now + ttl, actions, now, now);
      if !bound {
        return NotActivated;
      }
      ghost var delivered := store.Contents();
      ResumedEnds(delivered, k, w, now);
      recovery := Resume(k, Some(id), actions, w, now);
    }

    /** The prompt once more; no slot is claimed for it. */
    method Resend(k: Key, actions: Actions, w: Weather, now: Time)
      modifies store, actions`shown, actions`sent
      ensures OnlyTouches(old(store.Contents()), store.Contents(), k)
      ensures store.Contents() == Struck(old(store.Contents()), k, w.afterSend) && store.events == old(store.events)
      ensures actions.sent == old(actions.sent) + (if w.send.Delivered? then [Letter(k, true, now)] else [])
      ensures actions.shown == old(actions.shown) + (if w.send.Delivered? then {w.send.id} else {})
    {
      actions.SendText(k, true, w.send, now);
      Interfere(store, k, w.afterSend);
    }

    method Resume(k: Key, message: Option<int>, actions: Actions, w: Weather, now: Time) returns (recovery: Recovery)
      requires HasStatus(store.Contents(), k, ChallengeArchiving) && store.rows[k].expiresAt.Some?
      modifies store, actions`shown, actions`archived, actions`timers
      ensures OnlyTouches(old(store.Contents()), store.Contents(), k)
      ensures store.Contents() == Resumed(Struck(old(store.Contents()), k, w.afterArchive), k, w, now)
      ensures store.events == old(store.events)
      ensures recovery.NotActivated? && ResumeRace(w).Nobody? ==> Gone(actions, message)
      ensures recovery == if ArchiveEscapes(w) then Escaped
                          else if w.archive.Done? && w.afterArchive.Nobody? then Activated else NotActivated
      ensures recovery.Activated? ==>
        k in old(store.rows) && k in store.rows && SameQuestion(old(store.rows)[k], store.rows[k])
      ensures recovery.Activated? ==>
        k in store.rows && k in actions.timers && store.rows[k].expiresAt.Some? &&
        actions.timers[k] == Timer(if store.rows[k].expiresAt.value != 0 then store.rows[k].expiresAt.value else now,
          GRACE)
      ensures actions.timers - {k} == old(actions.timers) - {k}
    {
      actions.ArchiveAndMute(w.archive);
      Interfere(store, k, w.afterArchive);
      if w.archive.Raised? {
        return Escaped;
      }
      if w.archive.Refused? {
        Withdraw(k, message, actions, now);
        return NotActivated;
      }
      if !w.activationRuns {
        return Escaped;
      }
      recovery := Restart(k, message, actions, w, now);
    }

    method Restart(k: Key, message: Option<int>, actions: Actions, w: Weather, now: Time) returns (recovery: Recovery)
      requires w.activationRuns
      requires HasStatus(store.Contents(), k, ChallengeArchiving) ==> store.rows[k].expiresAt.Some?
      modifies store, actions`shown, actions`archived, actions`timers
      ensures OnlyTouches(old(store.Contents()), store.Contents(), k) && store.events == old(store.events)
      ensures store.Contents() == AfterArchive(old(store.Contents()), k, w, now)
      ensures recovery == if HasStatus(old(store.Contents()), k, ChallengeArchiving) then Activated else NotActivated
      ensures recovery.Activated? ==>
        k in old(store.rows) && k in store.rows && SameQuestion(old(store.rows)[k], store.rows[k])
      ensures recovery.Activated? ==>
        k in store.rows && k in actions.timers && store.rows[k].expiresAt.Some? &&
        actions.timers[k] == Timer(if store.rows[k].expiresAt.value != 0 then store.rows[k].expiresAt.value else now,
          GRACE)
      ensures actions.timers - {k} == old(actions.timers) - {k}
    {
      var activated := store.ActivateChallenge(k, now);
      if !activated {
        var restored := actions.RestoreWithRetry(w.restores);
        Interfere(store, k, w.afterRestore);
        if restored {
          Withdraw(k, message, actions, now);
        }
        return NotActivated;
      }
      var refreshed := store.Sender(k);
      actions.ScheduleTimeout(k, if refreshed.expiresAt.Some? && refreshed.expiresAt.value != 0 then
        refreshed.expiresAt.value else now, GRACE);
      recovery := Activated;
    }

    // -------------------------------------------------------------- answers and deadlines

    /** A notice needs a slot and a working connection. */
    method SendNotice(k: Key, actions: Actions, notice: Sending, now: Time) returns (id: Option<int>)
      requires Outbound.Valid(quota)
      modifies store`events, actions`shown, actions`sent
      ensures id == NoticeId(old(store.Contents()), k, notice, now)
      ensures Spends(k, false, old(store.events), store.events, old(actions.sent), actions.sent, now)
      ensures actions.sent == old(actions.sent) + (if id.Some? then [Letter(k, false, now)] else [])
      ensures store.events.processed == old(store.events).processed
      ensures store.events.automated ==
        if id.Some? then Recorded(old(store.events).automated, k, id.value, notice.at) else old(store.events).automated
    {
      var free := ClaimSlot(k, false, now);
      if !free {
        return None;
      }
      actions.SendText(k, false, notice, now);
      id := None;
      if notice.Delivered? {
        store.RecordAutomatedMessage(k, notice.id, notice.at);
        id := Some(notice.id);
      }
    }

    /** Whether the sender was told before its conversation is deleted. */
    predicate Told(db: Db, k: Key, notice: Sending, now: Time) {
      SlotFree(db, k, false, now) && notice.Delivered?
    }

    method ScheduleDeletion(k: Key, reason: string, reference: Blob, modeIndependent: bool, at: Time,
      actions: Actions, now: Time)
      requires k in store.rows && Restricted(store.rows[k].status)
      modifies store, actions`deletions
      ensures store.rows == old(store.rows) && store.reviews == old(store.reviews)
      ensures store.evidence == old(store.evidence) && store.snapshots == old(store.snapshots)
      ensures store.mode == old(store.mode) && store.events == old(store.events)
      ensures DeletionSet(store.Contents(), old(actions.deletions), actions.deletions, k, old(store.nextJob), reason,
        reference, modeIndependent, at, now)
    {
      var id := store.ScheduleAction(k, reason, reference, at, store.rows[k].revision, modeIndependent, now);
      actions.ScheduleDialogDeletion(id, at);
    }

    /** What the last wrong answer leaves: a deletion only if the sender was told and can be found. */
    ghost predicate Exhausted(db: Db, db': Db, deletions: map<nat, Time>, deletions': map<nat, Time>, k: Key,
                              reference: Option<Blob>, outcome: Outcome, notice: Sending, now: Time)
    {
      if Told(db, k, notice, now) && reference.Some? then
        outcome == (if IsTest(k) then Quarantining else Suppressing) &&
        DeletionSet(db', deletions, deletions', k, db.nextJob, "attempts_exhausted", reference.value, IsTest(k),
          now + 10, now) &&
        db'.rows[k].status == (if IsTest(k) then Quarantined else Suppressed) &&
        db'.rows[k].suppressedUntil == (if IsTest(k) then None else Some(now + 86400)) &&
        db'.rows[k].suppressionReason == (if IsTest(k) then None else Some("attempts_exhausted"))
      else
        outcome == Quarantining && HasStatus(db', k, Quarantined) && db'.jobs == db.jobs && deletions' == deletions
    }

    /** The last wrong answer: warn, then restrict and delete; without a warning or an identity, only quarantine. */
    method FailExhaustedAttempts(k: Key, state: Row, message: Incoming, actions: Actions, notice: Sending, now: Time)
      returns (outcome: Outcome)
      requires Outbound.Valid(quota)
      modifies store, actions
      ensures OnlyTouches(old(store.Contents()), store.Contents(), k)
      ensures actions.timers == old(actions.timers) - {k}
      ensures NoticesOnly(k, old(store.events), store.events, old(actions.sent), actions.sent, now)
      ensures Exhausted(old(store.Contents()), store.Contents(), old(actions.deletions), actions.deletions, k,
                        OrElse(message.reference, state.actionReference), outcome, notice, now)
      // The test sender gets over it in a minute, unless its state changes first.
      ensures IsTest(k) && outcome.Quarantining? && actions.deletions != old(actions.deletions) ==>
        actions.chores == old(actions.chores) + [TestReset(k, now, now + 60)] &&
        ResetsTest(store.Contents(), k, now)
      ensures !IsTest(k) ==> actions.chores == old(actions.chores)
      // Without a deletion the row is a fresh quarantine, with the message's identity if the warning failed.
      ensures !Told(old(store.Contents()), k, notice, now) || OrElse(message.reference, state.actionReference).None? ==>
        store.rows[k] == NO_ROW.(status := Quarantined,
          restrictionReference :=
            if Told(old(store.Contents()), k, notice, now) || message.reference.None? then None
            else control(message.reference.value),
          revision := old(Tables.Sender(store.Contents(), k)).revision + 1, updatedAt := now)
    {
      actions.CancelTimeout(k);
      var warning := SendNotice(k, actions, notice, now);
      var reference := OrElse(message.reference, state.actionReference);
      if warning.None? || reference.None? {
        outcome := ConfineExhausted(k, message.reference, warning.Some?, now);
        return;
      }
      outcome := DeleteExhausted(k, reference.value, actions, now);
    }

    /** The restriction, and the deletion bound to it. */
    method DeleteExhausted(k: Key, reference: Blob, actions: Actions, now: Time) returns (outcome: Outcome)
      modifies store, actions`chores, actions`deletions
      ensures OnlyTouches(old(store.Contents()), store.Contents(), k) && store.events == old(store.events)
      ensures outcome == if IsTest(k) then Quarantining else Suppressing
      ensures DeletionSet(store.Contents(), old(actions.deletions), actions.deletions, k, old(store.nextJob),
        "attempts_exhausted", reference, IsTest(k), now + DELETE_DELAY, now)
      ensures store.rows[k].status == (if IsTest(k) then Quarantined else Suppressed)
      ensures store.rows[k].suppressedUntil == if IsTest(k) then None else Some(now + FAILED_SUPPRESSION)
      ensures store.rows[k].suppressionReason == if IsTest(k) then None else Some("attempts_exhausted")
      ensures IsTest(k) ==> ResetsTest(store.Contents(), k, now)
      ensures actions.chores ==
        old(actions.chores) + (if IsTest(k) then [TestReset(k, now, now + TEST_RESET_DELAY)] else [])
    {
      outcome := PunishExhausted(k, reference, actions, now);
      ScheduleDeletion(k, "attempts_exhausted", reference, IsTest(k), now + DELETE_DELAY, actions, now);
    }

    /** Nobody was told, or nobody can be found: the owner is asked, at least if the message can be shown. */
    method ConfineExhausted(k: Key, reference: Option<Blob>, warned: bool, now: Time) returns (outcome: Outcome)
      modifies store
      ensures outcome == Quarantining
      ensures OnlyTouches(old(store.Contents()), store.Contents(), k)
      ensures store.jobs == old(store.jobs) && store.events == old(store.events) && k in store.rows
      ensures store.rows[k] == NO_ROW.(status := Quarantined,
        restrictionReference := if warned || reference.None? then None else control(reference.value),
        revision := old(Tables.Sender(store.Contents(), k)).revision + 1, updatedAt := now)
    {
      if !warned {
        Confine(k, RestrictionReference(reference), reference, "warning_failed", now);
        AskOwner(k, reference, "warning_failed", now);
      } else {
        Confine(k, None, None, "reference_unavailable", now);
      }
      outcome := Quarantining;
    }

    method PunishExhausted(k: Key, reference: Blob, actions: Actions, now: Time) returns (outcome: Outcome)
      modifies store, actions`chores
      ensures OnlyTouches(old(store.Contents()), store.Contents(), k)
      ensures store.jobs == old(store.jobs) && store.nextJob == old(store.nextJob) && store.events == old(store.events)
      ensures outcome == if IsTest(k) then Quarantining else Suppressing
      ensures HasStatus(store.Contents(), k, if IsTest(k) then Quarantined else Suppressed)
      ensures store.rows[k].suppressedUntil == if IsTest(k) then None else Some(now + FAILED_SUPPRESSION)
      ensures store.rows[k].suppressionReason == if IsTest(k) then None else Some("attempts_exhausted")
      ensures IsTest(k) ==> ResetsTest(store.Contents(), k, now)
      ensures actions.chores ==
        old(actions.chores) + (if IsTest(k) then [TestReset(k, now, now + TEST_RESET_DELAY)] else [])
    {
      if IsTest(k) {
        store.Quarantine(k, None, now);
        var terminal := store.Sender(k);
        actions.Schedule(TestReset(k, terminal.updatedAt, now + TEST_RESET_DELAY));
        outcome := Quarantining;
      } else {
        var _ := store.Suppress(k, "attempts_exhausted", Some(now + FAILED_SUPPRESSION), Some(reference),
                                RestrictionReference(Some(reference)), now);
        store.ActivateEnforcementReview(k, "attempts_exhausted", now + caseDays * DAY, Some(reference), now);
        outcome := Suppressing;
      }
    }

    /** After a timeout: notice, then deletion; without a notice or an identity, quarantine. */
    method FinalizeTimeoutFailure(k: Key, state: Row, fallback: Option<Blob>, actions: Actions, notice: Sending,
                                  now: Time)
      requires Outbound.Valid(quota) && HasStatus(store.Contents(), k, Suppressed)
      modifies store, actions
      ensures OnlyTouches(old(store.Contents()), store.Contents(), k)
      ensures actions.timers == old(actions.timers)
      ensures NoticesOnly(k, old(store.events), store.events, old(actions.sent), actions.sent, now)
      ensures IsTest(k) ==>
        store.rows == old(store.rows) && store.jobs == old(store.jobs) && actions.deletions == old(actions.deletions)
      ensures actions.chores == old(actions.chores) + (if IsTest(k) then TestChores(k, state, now) else [])
      ensures !IsTest(k) ==>
        var reference := OrElse(old(store.rows)[k].actionReference, fallback);
        if Told(old(store.Contents()), k, notice, now) && reference.Some? then
          store.rows == old(store.rows) &&
          DeletionSet(store.Contents(), old(actions.deletions), actions.deletions, k, old(store.nextJob),
            "challenge_timeout", reference.value, false, now + DELETE_DELAY, now)
        else
          HasStatus(store.Contents(), k, Quarantined) && store.jobs == old(store.jobs) &&
            actions.deletions == old(actions.deletions)
    {
      var id := SendNotice(k, actions, notice, now);
      if !IsTest(k) {
        var terminal := store.Sender(k);
        var reference := OrElse(terminal.actionReference, fallback);
        if id.None? || reference.None? {
          AskOwner(k, reference, "timeout_notice_failed", now);
          Confine(k, RestrictionReference(reference), reference, "timeout_notice_failed", now);
          return;
        }
        store.ActivateEnforcementReview(k, "challenge_timeout", now + caseDays * DAY, reference, now);
        ScheduleDeletion(k, "challenge_timeout", reference.value, false, now + DELETE_DELAY, actions, now);
        return;
      }
      actions.Schedule(TestMessages(k, StartedAt(state), now + DELETE_DELAY));
      actions.Schedule(TestReset(k, now, now + TEST_RESET_DELAY));
    }

    /** When the challenge that just ended was sent. */
    function StartedAt(state: Row): Time {
      if state.expiresAt.Some? then state.expiresAt.value - ttl else state.updatedAt
    }

    /** What is left to do after the test sender's timeout: its messages go, and then its state. */
    function TestChores(k: Key, state: Row, now: Time): seq<Chore> {
      var since := if state.expiresAt.Some? then state.expiresAt.value - ttl else state.updatedAt;
      [TestMessages(k, since, now + 10), TestReset(k, now, now + 60)]
    }

    /** The timer: a deadline other than the stored one does nothing at all. Without a connection to the
        sender the challenge ends all the same, and nothing more is done about it. */
    method ExpireChallenge(k: Key, expiresAt: Time, actions: Actions?, notice: Sending, now: Time)
      returns (expired: bool)
      requires Outbound.Valid(quota)
      modifies store, if actions == null then {} else {actions}
      ensures expired == Expires(old(store.Contents()), k, expiresAt)
      ensures !expired ==>
        store.Contents() == old(store.Contents()) &&
        (actions != null ==> actions.shown == old(actions.shown) && actions.deletions == old(actions.deletions) &&
                             actions.chores == old(actions.chores))
      ensures actions != null ==> actions.timers == old(actions.timers)
      ensures actions != null ==>
        NoticesOnly(k, old(store.events), store.events, old(actions.sent), actions.sent, now)
      ensures OnlyTouches(old(store.Contents()), store.Contents(), k)
      ensures expired && actions != null ==>
        TimedOut(old(store.Contents()), store.Contents(), old(actions.deletions), actions.deletions, k, None, notice,
          now) &&
        actions.chores == old(actions.chores) + (if IsTest(k) then TestChores(k, old(store.rows)[k], now) else [])
      ensures expired && actions == null ==>
        k in old(store.rows) && SuppressedByTimeout(store.Contents(), k, old(store.rows)[k], now) &&
        store.jobs == old(store.jobs) && store.events == old(store.events) && store.reviews == old(store.reviews)
    {
      var state := store.Sender(k);
      expired := store.ExpireChallenge(k, expiresAt, TimeoutPenalty(state.profile),
        RestrictionReference(state.actionReference), now);
      if expired {
        if !IsTest(k) {
          store.ActivateEnforcementReview(k, "challenge_timeout", now + caseDays * DAY, state.actionReference, now);
        }
        if actions != null {
          FinalizeTimeoutFailure(k, state, None, actions, notice, now);
        }
      }
    }

    /** Suppressed for as long as the profile asks, and the test sender's reset would find it unchanged. */
    ghost predicate SuppressedByTimeout(db: Db, k: Key, state: Row, now: Time) {
      HasStatus(db, k, Suppressed) && db.rows[k].suppressionReason == Some("challenge_timeout") &&
      db.rows[k].suppressedUntil == Some(now + (if state.profile == Some(Strict) then 86400 else 7200)) &&
      db.rows[k].restrictionReference ==
        (if state.actionReference.None? then None else control(state.actionReference.value)) && ResetsTest(db, k, now)
    }

    /** What a timeout leaves: the sender restricted, and a deletion only if it was told and can be found. */
    ghost predicate TimedOut(db: Db, db': Db, deletions: map<nat, Time>, deletions': map<nat, Time>, k: Key,
                             fallback: Option<Blob>, notice: Sending, now: Time)
    {
      var state := Tables.Sender(db, k);
      var reference := OrElse(state.actionReference, fallback);
      if IsTest(k) then
        SuppressedByTimeout(db', k, state, now) && db'.jobs == db.jobs && deletions' == deletions
      else if Told(db, k, notice, now) && reference.Some? then
        SuppressedByTimeout(db', k, state, now) &&
        DeletionSet(db', deletions, deletions', k, db.nextJob, "challenge_timeout", reference.value, false,
          now + 10, now)
      else
        HasStatus(db', k, Quarantined) && db'.jobs == db.jobs && deletions' == deletions
    }

    /** A reply after the deadline ends the challenge as a timeout. */
    method ExpireLateReply(k: Key, state: Row, message: Incoming, actions: Actions, notice: Sending, now: Time)
      returns (outcome: Outcome)
      requires Outbound.Valid(quota) && HasStatus(store.Contents(), k, Challenged) && state == store.rows[k] &&
        state.expiresAt.Some?
      modifies store, actions
      ensures outcome == Suppressing
      ensures OnlyTouches(old(store.Contents()), store.Contents(), k)
      ensures actions.timers == old(actions.timers) - {k}
      ensures NoticesOnly(k, old(store.events), store.events, old(actions.sent), actions.sent, now)
      ensures TimedOut(old(store.Contents()), store.Contents(), old(actions.deletions), actions.deletions, k,
        message.reference, notice, now)
      ensures actions.chores == old(actions.chores) + (if IsTest(k) then TestChores(k, state, now) else [])
    {
      var _ := store.ExpireChallenge(k, if state.expiresAt.Some? then state.expiresAt.value else 0,
                                     TimeoutPenalty(state.profile), RestrictionReference(state.actionReference), now);
      actions.CancelTimeout(k);
      FinalizeTimeoutFailure(k, state, message.reference, actions, notice, now);
      outcome := Suppressing;
    }

    /** The messages of a passed verification: the sender's and the service's from the prompt on, and the
        prompt, the answer and the confirmation in any case. */
    function VerificationIds(events: Events, k: Key, state: Row, message: Incoming, passed: Option<int>): set<int> {
      var first := if state.messageId.Some? && state.messageId.value != 0 then state.messageId.value else message.id;
      var last := if passed.Some? then Max(message.id, passed.value) else message.id;
      MessageIds(events, k, first, last) + {message.id} +
      (if state.messageId.Some? then {state.messageId.value} else {}) + (if passed.Some? then {passed.value} else {})
    }

    /** The number of the notice, if it gets through. */
    function NoticeId(db: Db, k: Key, notice: Sending, now: Time): Option<int> {
      if SlotFree(db, k, false, now) && notice.Delivered? then Some(notice.id) else None
    }

    /** What is left to do after a right answer: the verification disappears, and the test sender starts over. */
    function PassedChores(events: Events, k: Key, state: Row, message: Incoming, passed: Option<int>, now: Time):
      seq<Chore>
    {
      [VerificationMessages(k, VerificationIds(events, k, state, message, passed), now + 10)] +
      (if IsTest(k) then [TestReset(k, now, now + 60)] else [])
    }

    /** A right answer gives the dialog back first, and only then lets the sender through. */
    method AcceptCorrectAnswer(k: Key, state: Row, message: Incoming, actions: Actions, restores: nat -> bool,
                               notice: Sending, now: Time)
      returns (outcome: Outcome)
      requires Outbound.Valid(quota)
      modifies store, actions
      ensures outcome == if Restores(restores) then Passed else FailSafe
      ensures OnlyTouches(old(store.Contents()), store.Contents(), k)
      ensures store.rows == if Restores(restores) then StoreSpec.MarkProvisional(old(store.Contents()), k,
        now).rows else old(store.rows)
      ensures store.jobs == old(store.jobs) && actions.deletions == old(actions.deletions)
      ensures NoticesOnly(k, old(store.events), store.events, old(actions.sent), actions.sent, now)
      ensures actions.timers == if Restores(restores) then old(actions.timers) - {k} else old(actions.timers)
      ensures Restores(restores) ==> !actions.archived && k !in store.evidence
      ensures !Restores(restores) && message.reference.Some? ==> HasPendingReview(store.reviews, k)
      // The verification's messages are handed to a deletion of their own, and the test sender to its reset.
      ensures Restores(restores) ==>
        ResetsTest(store.Contents(), k, now) && actions.chores == old(actions.chores) +
          PassedChores(store.events, k, state, message, NoticeId(old(store.Contents()), k, notice, now), now)
      ensures !Restores(restores) ==> actions.chores == old(actions.chores)
    {
      var restored := actions.RestoreWithRetry(restores);
      if !restored {
        AskOwner(k, message.reference, "restore_failed", now);
        return FailSafe;
      }
      Release(k, state, message, actions, notice, now);
      outcome := Passed;
    }

    /** The sender is let through, told so, and the verification disappears. */
    method Release(k: Key, state: Row, message: Incoming, actions: Actions, notice: Sending, now: Time)
      requires Outbound.Valid(quota)
      modifies store, actions
      ensures OnlyTouches(old(store.Contents()), store.Contents(), k)
      ensures store.rows == StoreSpec.MarkProvisional(old(store.Contents()), k, now).rows && k !in store.evidence
      ensures store.jobs == old(store.jobs) && ResetsTest(store.Contents(), k, now)
      ensures actions.deletions == old(actions.deletions) && actions.archived == old(actions.archived)
      ensures actions.timers == old(actions.timers) - {k}
      ensures NoticesOnly(k, old(store.events), store.events, old(actions.sent), actions.sent, now)
      ensures actions.chores == old(actions.chores) +
        PassedChores(store.events, k, state, message, NoticeId(old(store.Contents()), k, notice, now), now)
    {
      var passed := Announce(k, actions, notice, now);
      CleanUp(k, state, message, passed, actions, now);
    }

    method Announce(k: Key, actions: Actions, notice: Sending, now: Time) returns (passed: Option<int>)
      requires Outbound.Valid(quota)
      modifies store, actions`timers, actions`shown, actions`sent
      ensures OnlyTouches(old(store.Contents()), store.Contents(), k)
      ensures store.rows == StoreSpec.MarkProvisional(old(store.Contents()), k, now).rows && k !in store.evidence
      ensures store.jobs == old(store.jobs) && ResetsTest(store.Contents(), k, now)
      ensures actions.timers == old(actions.timers) - {k}
      ensures NoticesOnly(k, old(store.events), store.events, old(actions.sent), actions.sent, now)
      ensures passed == NoticeId(old(store.Contents()), k, notice, now)
    {
      store.MarkProvisional(k, now);
      actions.CancelTimeout(k);
      passed := SendNotice(k, actions, notice, now);
    }

    /** That is: the prompt, the reply, the notice, and whatever else was said by either side from the prompt up to
        the later of the other two. */
    lemma VerificationIdsAre(events: Events, k: Key, state: Row, message: Incoming, passed: Option<int>, id: int)
      requires state.messageId.Some? && 0 < state.messageId.value <= message.id
      ensures id in VerificationIds(events, k, state, message, passed) <==>
        id == state.messageId.value || id == message.id || passed == Some(id) ||
        (((k, id) in events.processed || (k, id) in events.automated) && state.messageId.value <= id &&
         (id <= message.id || (passed.Some? && id <= passed.value)))
    {
      if (k, id) in events.processed || (k, id) in events.automated {
        assert (k, id) in events.processed.Keys + events.automated.Keys;
      }
    }

    method CleanUp(k: Key, state: Row, message: Incoming, passed: Option<int>, actions: Actions, now: Time)
      modifies actions`chores
      ensures actions.chores == old(actions.chores) + PassedChores(store.events, k, state, message, passed, now)
    {
      var ids := store.MessageIdsBetween(k,
        if state.messageId.Some? && state.messageId.value != 0 then state.messageId.value else message.id,
        if passed.Some? then Max(message.id, passed.value) else message.id);
      ids := ids + {message.id};
      if state.messageId.Some? {
        ids := ids + {state.messageId.value};
      }
      if passed.Some? {
        ids := ids + {passed.value};
      }
      assert ids == VerificationIds(store.events, k, state, message, passed);
      actions.Schedule(VerificationMessages(k, ids, now + DELETE_DELAY));
      if IsTest(k) {
        actions.Schedule(TestReset(k, now, now + TEST_RESET_DELAY));
      }
    }

    /** An unusable reply costs no attempt; the sender gets one hint. */
    method IgnoreWithGuidance(k: Key, state: Row, actions: Actions, notice: Sending,
      now: Time) returns (outcome: Outcome)
      requires Outbound.Valid(quota) && HasStatus(store.Contents(), k, Challenged) && state == store.rows[k]
      modifies store, actions`shown, actions`sent
      ensures outcome == Ignored
      ensures NoticesOnly(k, old(store.events), store.events, old(actions.sent), actions.sent, now)
      ensures store.rows ==
        old(store.rows)[k := state.(guidanceSent := state.guidanceSent || Told(old(store.Contents()), k, notice, now))]
      ensures store.jobs == old(store.jobs) && OnlyTouches(old(store.Contents()), store.Contents(), k)
      ensures state.guidanceSent ==> actions.shown == old(actions.shown)
    {
      if !state.guidanceSent {
        var sent := SendNotice(k, actions, notice, now);
        if sent.Some? {
          var _ := store.MarkChallengeGuidanceSent(k);
        }
      }
      outcome := Ignored;
    }

    function LimitOf(state: Row): nat {
      if state.profile == Some(Strict) then 1 else maxAttempts
    }

    /** What one reply does to a running challenge. */
    ghost predicate Answered(db: Db, db': Db, deletions: map<nat, Time>, deletions': map<nat, Time>, k: Key,
                             message: Incoming, outcome: Outcome, restores: nat -> bool, notice: Sending, now: Time)
    {
      var state := Tables.Sender(db, k);
      if Late(state, message) then
        outcome == Suppressing && TimedOut(db, db', deletions, deletions', k, message.reference, notice, now)
      else if BeforePrompt(state, message) then
        outcome == Ignored && db' == db && deletions' == deletions
      else
        Judged(db, db', deletions, deletions', k, message, outcome, restores, notice, now)
    }

    /** What a reply in time does. */
    ghost predicate Judged(db: Db, db': Db, deletions: map<nat, Time>, deletions': map<nat, Time>, k: Key,
                           message: Incoming, outcome: Outcome, restores: nat -> bool, notice: Sending, now: Time)
    {
      var state := Tables.Sender(db, k);
      if message.answer.None? then
        outcome == Ignored && deletions' == deletions && db'.jobs == db.jobs &&
        db'.rows == db.rows[k := state.(guidanceSent := state.guidanceSent || Told(db, k, notice, now))]
      else if Correct(state, message) then
        outcome == (if Restores(restores) then Passed else FailSafe) && deletions' == deletions &&
          db'.jobs == db.jobs &&
        db'.rows == (if Restores(restores) then MarkProvisional(db, k, now).rows else db.rows)
      else if state.attempts + 1 < LimitOf(state) then
        outcome == Incorrect && deletions' == deletions && db'.jobs == db.jobs &&
        db'.rows == db.rows[k := state.(attempts := state.attempts + 1, updatedAt := now)]
      else
        Exhausted(db, db', deletions, deletions', k, OrElse(message.reference, state.actionReference), outcome,
          notice, now)
    }

    method HandleChallenge(k: Key, state: Row, message: Incoming, actions: Actions, restores: nat -> bool,
                           notice: Sending, now: Time)
      returns (outcome: Outcome)
      requires Outbound.Valid(quota)
      requires HasStatus(store.Contents(), k, Challenged) && state == store.rows[k] && state.expiresAt.Some?
      modifies store, actions
      ensures OnlyTouches(old(store.Contents()), store.Contents(), k)
      ensures actions.timers - {k} == old(actions.timers) - {k}
      ensures NoticesOnly(k, old(store.events), store.events, old(actions.sent), actions.sent, now)
      ensures Answered(old(store.Contents()), store.Contents(), old(actions.deletions), actions.deletions, k, message,
                       outcome, restores, notice, now)
    {
      if state.expiresAt.None? || state.expiresAt.value == 0 || message.sentAt > state.expiresAt.value {
        outcome := ExpireLateReply(k, state, message, actions, notice, now);
      } else if state.messageId.Some? && message.id < state.messageId.value && message.replyTo != state.messageId {
        outcome := Ignored;
      } else {
        outcome := JudgeAnswer(k, state, message, actions, restores, notice, now);
      }
    }

    method JudgeAnswer(k: Key, state: Row, message: Incoming, actions: Actions, restores: nat -> bool,
                       notice: Sending, now: Time)
      returns (outcome: Outcome)
      requires Outbound.Valid(quota) && HasStatus(store.Contents(), k, Challenged) && state == store.rows[k]
      modifies store, actions
      ensures OnlyTouches(old(store.Contents()), store.Contents(), k)
      ensures actions.timers - {k} == old(actions.timers) - {k}
      ensures NoticesOnly(k, old(store.events), store.events, old(actions.sent), actions.sent, now)
      ensures Judged(old(store.Contents()), store.Contents(), old(actions.deletions), actions.deletions, k, message,
                     outcome, restores, notice, now)
    {
      if message.answer.None? {
        outcome := IgnoreWithGuidance(k, state, actions, notice, now);
      } else if Correct(state, message) {
        outcome := AcceptCorrectAnswer(k, state, message, actions, restores, notice, now);
      } else {
        outcome := CountWrongAnswer(k, state, message, actions, notice, now);
      }
    }

    method CountWrongAnswer(k: Key, state: Row, message: Incoming, actions: Actions, notice: Sending, now: Time)
      returns (outcome: Outcome)
      requires Outbound.Valid(quota)
      requires HasStatus(store.Contents(), k, Challenged) && state == store.rows[k]
      modifies store, actions
      ensures OnlyTouches(old(store.Contents()), store.Contents(), k)
      ensures actions.timers - {k} == old(actions.timers) - {k}
      ensures NoticesOnly(k, old(store.events), store.events, old(actions.sent), actions.sent, now)
      ensures state.attempts + 1 < LimitOf(state) ==>
        outcome == Incorrect && actions.deletions == old(actions.deletions) && store.jobs == old(store.jobs) &&
        store.rows == old(store.rows)[k := state.(attempts := state.attempts + 1, updatedAt := now)]
      ensures state.attempts + 1 >= LimitOf(state) ==>
        Exhausted(old(store.Contents()), store.Contents(), old(actions.deletions), actions.deletions, k,
                  OrElse(message.reference, state.actionReference), outcome, notice, now)
    {
      var attempts := store.IncrementAttempts(k, now);
      if attempts >= LimitOf(state) {
        outcome := FailExhaustedAttempts(k, state, message, actions, notice, now);
      } else {
        var _ := SendNotice(k, actions, notice, now);
        outcome := Incorrect;
      }
    }

    // -------------------------------------------------------------- one message

    /** A suppressed sender wrote again: delete the conversation once more. */
    method ScheduleSuppressedDelete(k: Key, state: Row, message: Incoming, actions: Actions, now: Time)
      returns (outcome: Outcome)
      requires HasStatus(store.Contents(), k, Suppressed) && state == store.rows[k]
      modifies store, actions`deletions
      ensures var reference := OrElse(message.reference, state.actionReference);
        if reference.None? then
          outcome == FailSafe && store.Contents() == old(store.Contents()) &&
            actions.deletions == old(actions.deletions)
        else
          outcome == Suppressing && store.rows == old(store.rows) &&
          DeletionSet(store.Contents(), old(actions.deletions), actions.deletions, k, old(store.nextJob),
            SuppressionName(state), reference.value, false, now, now)
      ensures OnlyTouches(old(store.Contents()), store.Contents(), k) && store.events == old(store.events)
    {
      var reference := OrElse(message.reference, state.actionReference);
      if reference.None? {
        return FailSafe;
      }
      ScheduleDeletion(k, SuppressionName(state), reference.value, false, now, actions, now);
      outcome := Suppressing;
    }

    function SuppressionName(state: Row): string {
      if state.suppressionReason.Some? && state.suppressionReason.value != "" then state.suppressionReason.value
      else "suppressed_sender"
    }

    /** Conclusive evidence: restrict for good and delete at once, if the sender can be found again. */
    method SchedulePermanentSuppression(k: Key, message: Incoming, actions: Actions,
      now: Time) returns (outcome: Outcome)
      modifies store, actions
      ensures OnlyTouches(old(store.Contents()), store.Contents(), k)
      ensures actions.timers - {k} == old(actions.timers) - {k} && actions.shown == old(actions.shown)
      ensures store.events == old(store.events) && actions.sent == old(actions.sent)
      ensures if message.reference.None? then
          outcome == FailSafe && store.rows == old(store.rows) && store.jobs == old(store.jobs) &&
            k !in store.evidence &&
          actions.deletions == old(actions.deletions)
        else
          outcome == Suppressing && HasStatus(store.Contents(), k, Suppressed) && store.rows[k].suppressedUntil.None? &&
          k !in actions.timers &&
          DeletionSet(store.Contents(), old(actions.deletions), actions.deletions, k, old(store.nextJob),
            "permanent_suppression",
                      message.reference.value, false, now, now)
    {
      if message.reference.None? {
        store.DeleteEnforcementReview(k);
        return FailSafe;
      }
      var _ := store.Suppress(k, "permanent_suppression", None, message.reference,
        RestrictionReference(message.reference), now);
      store.ActivateEnforcementReview(k, "permanent_suppression", now + caseDays * DAY, message.reference, now);
      ScheduleDeletion(k, "permanent_suppression", message.reference.value, false, now, actions, now);
      actions.CancelTimeout(k);
      outcome := Suppressing;
    }

    /** Old states that end before a message is looked at: the test sender's stale ones, and a suppression
        whose time is up. */
    function Renewed(db: Db, k: Key, now: Time): Db {
      var row := Tables.Sender(db, k);
      if IsTest(k) && row.status.Allowed? then StoreSpec.Revoke(db, k, now)
      else if Releases(db, k, now) then ReleaseExpired(db, k, now)
      else if IsTest(k) && (row.status.Provisional? || row.status.Quarantined?) &&
        row.updatedAt + TEST_RESET_DELAY <= now
      then StoreSpec.ResetTestSender(db, k, row.updatedAt, now)
      else db
    }

    /** Row by row: an ordinary sender is renewed exactly when its suppression is over; the test sender starts over
        when it was allowed, and a minute after it passed or was quarantined. */
    lemma RenewedRow(db: Db, k: Key, now: Time)
      requires k in db.rows
      ensures k in Renewed(db, k, now).rows
      ensures var row, row' := db.rows[k], Renewed(db, k, now).rows[k];
        if row.status.Suppressed? && row.suppressedUntil.Some? && row.suppressedUntil.value <= now then
          row' == row.(status := Unknown, suppressionReason := None, suppressedUntil := None, actionReference := None,
                       restrictionReference := None, archivedAt := None, revision := row.revision + 1, updatedAt := now)
        else if testKey == Some(k) && (row.status.Allowed? ||
                ((row.status.Provisional? || row.status.Quarantined?) && now - row.updatedAt >= 60)) then
          row' == NO_ROW.(revision := row.revision + 1, updatedAt := now)
        else row' == row
    {}

    method Renew(k: Key, now: Time) returns (state: Row)
      modifies store
      ensures store.Contents() == Renewed(old(store.Contents()), k, now) && store.events == old(store.events)
      ensures OnlyTouches(old(store.Contents()), store.Contents(), k)
      ensures state == Tables.Sender(store.Contents(), k)
    {
      state := store.Sender(k);
      if IsTest(k) && state.status.Allowed? {
        store.Revoke(k, now);
      } else if state.status.Suppressed? {
        if state.suppressedUntil.Some? && state.suppressedUntil.value <= now {
          var _ := store.ReleaseExpiredSuppression(k, now);
        }
      } else if IsTest(k) && (state.status.Provisional? || state.status.Quarantined?) &&
                state.updatedAt + TEST_RESET_DELAY <= now {
        var _ := store.ResetTestSender(k, state.updatedAt, now);
      }
      state := store.Sender(k);
    }

    /** Whether the state alone decides the message, and how. */
    predicate Settles(row: Row, message: Incoming, test: bool) {
      (row.status.Suppressed? && !test) || (message.trusted && !test) || row.status.Allowed? ||
      (message.trustedHistory && !test && (row.status.Unknown? || row.status.Provisional?)) ||
      row.status.Quarantined? || ChallengeStarting(row.status)
    }

    /** What a message that the row read decides leaves of the database the command line left. */
    ghost predicate Settled(row: Row, db: Db, db': Db, deletions: map<nat, Time>, deletions': map<nat, Time>, k: Key,
                            message: Incoming, outcome: Outcome, now: Time)
    {
      if row.status.Suppressed? && !IsTest(k) then
        var reference := OrElse(message.reference, row.actionReference);
        if db.mode.Monitor? then outcome == WouldDeleteSuppressed && db' == db && deletions' == deletions
        else if reference.None? then outcome == FailSafe && db' == db && deletions' == deletions
        else outcome == Suppressing && db'.rows == db.rows &&
             DeletionSet(db', deletions, deletions', k, db.nextJob,
               if row.suppressionReason.Some? && row.suppressionReason.value != "" then row.suppressionReason.value
               else "suppressed_sender", reference.value, false, now, now)
      else if row.status.Quarantined? && !(message.trusted && !IsTest(k)) then
        outcome == AlreadyQuarantined && db' == db && deletions' == deletions
      else if ChallengeStarting(row.status) && !(message.trusted && !IsTest(k)) then
        outcome == StillStarting && db' == db && deletions' == deletions
      else
        outcome == LetThrough && deletions' == deletions &&
        db' == (if row.status.Allowed? && (IsTest(k) || !message.trusted) then db else StoreSpec.Allow(db, k, now))
    }

    /** The state that decides a message without looking at it; what is left goes on to screening. */
    method SettleBeforeScreening(k: Key, message: Incoming, actions: Actions, race: Race, now: Time)
      returns (state: Row, settled: Option<Outcome>)
      modifies store, actions`deletions
      ensures var db := Renewed(old(store.Contents()), k, now);
        state == Tables.Sender(db, k) && (settled.Some? <==> Settles(state, message, IsTest(k))) &&
        (settled.None? ==>
          store.Contents() == Landed(db, k, race) && actions.deletions == old(actions.deletions)) &&
        (settled.Some? ==>
          Settled(state, Landed(db, k, race), store.Contents(), old(actions.deletions), actions.deletions, k, message,
                  settled.value, now) &&
          TellsOrOvertaken(store.Contents(), k, settled.value, race) && !settled.value.Duplicate? &&
          DeletionsBound(store.Contents(), old(actions.deletions), actions.deletions, k) &&
          (db.mode.Monitor? ==>
            actions.deletions == old(actions.deletions) && store.nextJob == old(store.nextJob) &&
            (store.rows == Landed(db, k, race).rows || StatusOf(store.Contents(), k) == Allowed)))
      ensures ReadBefore(store.Contents(), k, state) || settled.Some?
      ensures store.events == old(store.events)
      ensures OnlyTouches(old(store.Contents()), store.Contents(), k)
    {
      RenewedSchedulesNothing(store.Contents(), k, now);
      state := Renew(k, now);
      LandedAs(store.Contents(), k, race);
      Arrive(k, race);
      settled := Settle(k, state, message, actions, now);
    }

    /** A command arrives, and looks before it writes. */
    method Arrive(k: Key, race: Race)
      modifies store
      ensures OnlyTouches(old(store.Contents()), store.Contents(), k)
      ensures store.Contents() == Landed(old(store.Contents()), k, race) && store.events == old(store.events)
      ensures ReadBefore(store.Contents(), k, old(Tables.Sender(store.Contents(), k)))
    {
      LandedAs(store.Contents(), k, race);
      if !DashboardOnly(StatusOf(store.Contents(), k)) {
        Interfere(store, k, race);
      }
    }

    method Settle(k: Key, state: Row, message: Incoming, actions: Actions, now: Time)
      returns (settled: Option<Outcome>)
      requires ReadBefore(store.Contents(), k, state)
      modifies store, actions`deletions
      ensures settled.Some? <==> Settles(state, message, IsTest(k))
      ensures settled.None? ==>
        store.Contents() == old(store.Contents()) && actions.deletions == old(actions.deletions)
      ensures settled.Some? ==>
        Settled(state, old(store.Contents()), store.Contents(), old(actions.deletions), actions.deletions, k, message,
                settled.value, now) &&
        (Tells(store.Contents(), k, settled.value) ||
         (store.rows == old(store.rows) && old(Tables.Sender(store.Contents(), k)) != state)) &&
        !settled.value.Duplicate? && DeletionsBound(store.Contents(), old(actions.deletions), actions.deletions, k)
      ensures store.mode.Monitor? ==>
        actions.deletions == old(actions.deletions) && store.nextJob == old(store.nextJob) &&
        (store.rows == old(store.rows) || StatusOf(store.Contents(), k) == Allowed)
      ensures OnlyTouches(old(store.Contents()), store.Contents(), k) && store.events == old(store.events)
    {
      settled := None;
      if state.status.Suppressed? && !IsTest(k) {
        if store.mode.Monitor? {
          settled := Some(WouldDeleteSuppressed);
        } else {
          var outcome := ScheduleSuppressedDelete(k, state, message, actions, now);
          settled := Some(outcome);
        }
      } else if !IsTest(k) && message.trusted {
        store.Allow(k, now);
        settled := Some(LetThrough);
      } else if state.status.Allowed? {
        settled := Some(LetThrough);
      } else if !IsTest(k) && (state.status.Unknown? || state.status.Provisional?) && message.trustedHistory {
        store.Allow(k, now);
        settled := Some(LetThrough);
      } else if state.status.Quarantined? {
        settled := Some(AlreadyQuarantined);
      } else if ChallengeStarting(state.status) {
        settled := Some(StillStarting);
      }
    }

    /** The outcome names the state the sender is in. */
    ghost predicate Tells(db: Db, k: Key, outcome: Outcome) {
      match outcome
      case Duplicate => true
      case LetThrough => StatusOf(db, k) == Allowed
      case AlreadyQuarantined => StatusOf(db, k) == Quarantined
      case Quarantining => StatusOf(db, k) == Quarantined
      case QuarantinedRateLimited => StatusOf(db, k) == Quarantined
      case Suppressing => Restricted(StatusOf(db, k))
      case StillStarting => ChallengeStarting(StatusOf(db, k))
      case Started => StatusOf(db, k) == Challenged
      case Ignored => StatusOf(db, k) == Challenged
      case Incorrect => StatusOf(db, k) == Challenged
      case Passed => StatusOf(db, k) == Provisional
      case WouldDelete => db.mode.Monitor?
      case WouldDeleteSuppressed => db.mode.Monitor? && StatusOf(db, k) == Suppressed
      case WouldChallenge => db.mode.Monitor?
      case FailSafe => true
    }

    /** Every deletion handed to the worker here belongs to the restriction that stands afterwards. */
    ghost predicate DeletionsBound(db: Db, deletions: map<nat, Time>, deletions': map<nat, Time>, k: Key) {
      forall id :: id in deletions' && !(id in deletions && deletions[id] == deletions'[id]) ==>
        id in db.jobs && db.jobs[id].key == k && db.jobs[id].status.ActionPending? &&
        Restricted(StatusOf(db, k)) && db.jobs[id].expectedRevision == Tables.Sender(db, k).revision
    }

    /** What a message does that the row read did not settle. */
    ghost predicate Screened(state: Row, db: Db, db': Db, deletions: map<nat, Time>, deletions': map<nat, Time>,
                             k: Key, message: Incoming, decision: Decision, signals: bool, w: Weather,
                             notice: Sending, now: Time, outcome: Outcome)
    {
      if decision.Permanent? && db.mode.Monitor? then
        outcome == WouldDelete && db'.rows == db.rows && db'.jobs == db.jobs && deletions' == deletions &&
        (message.reference.Some? ==> HasPendingReview(db'.reviews, k))
      else if decision.Permanent? && message.reference.None? then
        outcome == FailSafe && db'.rows == db.rows && db'.jobs == db.jobs && deletions' == deletions &&
        k !in db'.evidence
      else if decision.Permanent? then
        outcome == Suppressing && HasStatus(db', k, Suppressed) && db'.rows[k].suppressedUntil.None? &&
        DeletionSet(db', deletions, deletions', k, db.nextJob, "permanent_suppression", message.reference.value, false,
                    now, now)
      else if state.status.Provisional? && !signals then
        outcome == Passed && db' == db && deletions' == deletions
      else if state.status.Challenged? then
        Answered(db, db', deletions, deletions', k, message, outcome, w.restores, notice, now)
      else if db.mode.Monitor? && !IsTest(k) then
        outcome == WouldChallenge && db'.rows == db.rows && db'.jobs == db.jobs && deletions' == deletions &&
        (message.reference.Some? ==> HasPendingReview(db'.reviews, k))
      else
        outcome == IssueOutcome(SlotFree(db, k, true, now), w) && deletions' == deletions &&
        Issued(db, db', k, message.reference, w, now)
    }

    // What the detector sees: the message, and how many the sender lately sent with links.
    function CaseOf(db: Db, k: Key, facts: Rules.Facts, now: Time): Rules.Case {
      Rules.Case(reader, facts, RecentLinks(db.events.links, k, now - 60), denylist)
    }

    /** The sighting of a campaign that a message amounts to, if any; the test sender's do not count. */
    function SightOf(db: Db, k: Key, facts: Rules.Facts, now: Time): Option<Campaign.Sight> {
      var found := fingerprint(facts, Rules.Detected(CaseOf(db, k, facts, now), |Rules.CODES|));
      if IsTest(k) || found.None? then None else Some(Campaign.Sight(found.value, k, now))
    }

    /** Another sender showed the same template within seven days. */
    ghost predicate Repeated(db: Db, k: Key, facts: Rules.Facts, now: Time) {
      SightOf(db, k, facts, now).Some? &&
      Campaign.ShownByAnother(db.events.campaign, SightOf(db, k, facts, now).value)
    }

    /** What a message leaves in the logs that later messages are judged by. */
    function LogsAfter(db: Db, k: Key, facts: Rules.Facts, now: Time): Events {
      var linked := if Rules.HasLink(facts) && !IsTest(k) then RecordLink(db, k, now).events else db.events;
      var sight := SightOf(db, k, facts, now);
      if sight.None? then linked else linked.(campaign := Campaign.Upsert(linked.campaign, sight.value))
    }

    function Observed(db: Db, k: Key, facts: Rules.Facts, now: Time): Db {
      db.(events := LogsAfter(db, k, facts, now))
    }

    /** A sender's next message with a link inside a minute counts as a burst. */
    lemma LinksAreRemembered(db: Db, k: Key, earlier: Rules.Facts, later: Rules.Facts, t: Time, now: Time)
      requires (earlier.urls != [] || earlier.hasLinkButton) && !IsTest(k) && now - 60 <= t
      ensures later.urls != [] || later.hasLinkButton ==>
        Rules.Holds(CaseOf(Observed(db, k, earlier, t), k, later, now), Policy.LinkBurst)
    {
      var links := Observed(db, k, earlier, t).events.links;
      assert links == db.events.links + [LogRow(k, t)];
      assert links[..|links| - 1] == db.events.links;
    }

    lemma TestLeavesNoTrace(db: Db, k: Key, facts: Rules.Facts, now: Time)
      requires IsTest(k)
      ensures Observed(db, k, facts, now) == db
    {}

    /** A template is repeated when another sender showed it within seven days; the test sender's do not count. */
    lemma TemplatesAreRemembered(db: Db, a: Key, b: Key, earlier: Rules.Facts, later: Rules.Facts, t: Time, now: Time)
      requires a != b && !IsTest(a) && !IsTest(b) && now - 604800 <= t
      requires SightOf(db, a, earlier, t).Some?
      requires SightOf(Observed(db, a, earlier, t), b, later, now) ==
               Some(Campaign.Sight(SightOf(db, a, earlier, t).value.fingerprint, b, now))
      ensures Repeated(Observed(db, a, earlier, t), b, later, now)
    {
      var seen := Observed(db, a, earlier, t);
      var p := (SightOf(db, a, earlier, t).value.fingerprint, a);
      assert p in seen.events.campaign && seen.events.campaign[p] == t;
    }

    ghost function SignalsOf(db: Db, k: Key, facts: Rules.Facts, now: Time): seq<Policy.Signal> {
      Rules.Evidence(CaseOf(db, k, facts, now), Repeated(db, k, facts, now))
    }

    /** Detects the signals, and records the link and the campaign they depend on. */
    method EvidenceSignals(k: Key, facts: Rules.Facts, now: Time) returns (signals: seq<Policy.Signal>)
      modifies store`events
      ensures signals == SignalsOf(old(store.Contents()), k, facts, now)
      ensures store.Contents() == Observed(old(store.Contents()), k, facts, now)
      ensures store.events.outbound == old(store.events).outbound
    {
      var recent := store.RecentLinkMessages(k, now);
      signals := Rules.DetectEvidenceSignals(Rules.Case(reader, facts, recent, denylist));
      if Rules.HasLink(facts) && !IsTest(k) {
        store.RecordLinkMessage(k, now);
      }
      if !IsTest(k) {
        var candidate := fingerprint(facts, signals);
        if candidate.Some? {
          CampaignCounts(store.events.campaign, candidate.value, k, now);
          var count := store.ObserveCampaign(candidate.value, k, now);
          if count >= 2 {
            signals := signals + [Policy.Signal(Policy.RepeatedCampaign, Policy.Behavior, 40)];
          }
        }
      }
    }

    lemma CampaignCounts(table: Campaign.Events, found: string, k: Key, now: Time)
      ensures var sight := Campaign.Sight(found, k, now);
        Campaign.Count(Campaign.Upsert(table, sight), found, now - CAMPAIGN_WINDOW) >= 2 <==>
        Campaign.ShownByAnother(table, sight)
    {
      Campaign.CountsTwoIfShownByAnother(table, Campaign.Sight(found, k, now));
    }

    /** The test sender is always asked the standard question. */
    function DecisionFor(k: Key, signals: seq<Policy.Signal>): Decision {
      DecisionOn(if IsTest(k) then [] else signals)
    }

    /** What a message does that the row read leaves open: what the detector raises is caught, and nothing is done. */
    ghost predicate HandledOpen(row: Row, db: Db, db': Db, deletions: map<nat, Time>, deletions': map<nat, Time>,
                                k: Key, message: Incoming, w: Weather, notice: Sending, now: Time, outcome: Outcome)
    {
      if !w.screens then
        outcome == FailSafe && db' == db && deletions' == deletions
      else
        var signals := SignalsOf(db, k, message.facts, now);
        Screened(row, Observed(db, k, message.facts, now), db', deletions, deletions', k, message,
                 DecisionFor(k, signals), signals != [], w, notice, now, outcome)
    }

    /** What a new message does: what the state settles, or what screening makes of it. */
    ghost predicate HandledNew(db: Db, db': Db, deletions: map<nat, Time>, deletions': map<nat, Time>, k: Key,
                               message: Incoming, w: Weather, notice: Sending, now: Time, outcome: Outcome)
    {
      var row, landed := Tables.Sender(db, k), Landed(db, k, w.afterRead);
      if Settles(row, message, IsTest(k)) then
        Settled(row, landed, db', deletions, deletions', k, message, outcome, now)
      else
        HandledOpen(row, landed, db', deletions, deletions', k, message, w, notice, now, outcome)
    }

    /** The outcome names the state the sender is in, or a command has the last word on it. */
    ghost predicate TellsOrOvertaken(db: Db, k: Key, outcome: Outcome, race: Race) {
      Tells(db, k, outcome) || Overtaken(db, k, race)
    }

    /** Monitor mode only observes: nothing is sent, archived or scheduled. */
    twostate predicate OnlyObserved(actions: Actions)
      reads actions, store
    {
      actions.shown == old(actions.shown) && actions.archived == old(actions.archived) &&
      actions.timers == old(actions.timers) && actions.deletions == old(actions.deletions) &&
      actions.chores == old(actions.chores) && actions.sent == old(actions.sent) && store.nextJob == old(store.nextJob)
    }

    /** One message from start to end, with the sender's lock held. */
    method HandleLocked(k: Key, message: Incoming, envelope: Option<Blob>, challenge: Challenge, actions: Actions,
                        w: Weather, notice: Sending, now: Time)
      returns (outcome: Outcome)
      requires Outbound.Valid(quota)
      requires HasStatus(store.Contents(), k, Challenged) ==> store.rows[k].expiresAt.Some?
      modifies store, actions
      ensures TellsOrOvertaken(store.Contents(), k, outcome, w.afterRead)
      ensures OnlyTouches(old(store.Contents()), store.Contents(), k)
      ensures actions.timers - {k} == old(actions.timers) - {k}
      ensures DeletionsBound(store.Contents(), old(actions.deletions), actions.deletions, k)
      // At most one slot is claimed, at most one letter sent on it; a question costs one, sent or not.
      ensures Charged(k, outcome, old(store.events), store.events, old(actions.sent), actions.sent, now)
      // A started challenge is the one at hand, and as strict as the message asks for.
      ensures outcome.Started? ==>
        k in store.rows && Questioned(store.rows[k], old(store.Contents()), k, message, challenge, now)
      // A message number seen before does nothing at all.
      ensures outcome.Duplicate? <==> (k, message.id) in old(store.events).processed
      ensures outcome.Duplicate? ==> store.Contents() == old(store.Contents()) && OnlyObserved(actions)
      // The whole effect of a new one.
      ensures !outcome.Duplicate? ==>
        HandledNew(Renewed(StoreSpec.ClaimMessage(old(store.Contents()), k, message.id, now), k, now),
                   store.Contents(), old(actions.deletions), actions.deletions, k, message, w, notice, now, outcome)
      // In monitor mode a row changes only for the better, or as a command says.
      ensures old(store.mode).Monitor? && !IsTest(k) && !HasStatus(old(store.Contents()), k, Challenged) ==>
        OnlyObserved(actions) &&
        (outcome.Duplicate? || StatusOf(store.Contents(), k) == Allowed ||
         store.rows == Landed(Renewed(StoreSpec.ClaimMessage(old(store.Contents()), k, message.id, now), k, now), k,
                              w.afterRead).rows)
    {
      var claimed := store.ClaimMessage(k, message.id, now);
      if !claimed {
        return Duplicate;
      }
      ghost var taken := store.Contents();
      outcome := HandleNew(k, message, envelope, challenge, actions, w, notice, now);
      SameQuestioned(Tables.Sender(store.Contents(), k), old(store.Contents()), taken, k, message, challenge, now);
    }

    method HandleNew(k: Key, message: Incoming, envelope: Option<Blob>, challenge: Challenge, actions: Actions,
                     w: Weather, notice: Sending, now: Time)
      returns (outcome: Outcome)
      requires Outbound.Valid(quota)
      requires HasStatus(store.Contents(), k, Challenged) ==> store.rows[k].expiresAt.Some?
      modifies store, actions
      ensures TellsOrOvertaken(store.Contents(), k, outcome, w.afterRead) && !outcome.Duplicate?
      ensures OnlyTouches(old(store.Contents()), store.Contents(), k)
      ensures actions.timers - {k} == old(actions.timers) - {k}
      ensures DeletionsBound(store.Contents(), old(actions.deletions), actions.deletions, k)
      ensures Charged(k, outcome, old(store.events), store.events, old(actions.sent), actions.sent, now)
      ensures outcome.Started? ==>
        k in store.rows && Questioned(store.rows[k], old(store.Contents()), k, message, challenge, now)
      ensures HandledNew(Renewed(old(store.Contents()), k, now), store.Contents(), old(actions.deletions),
                         actions.deletions, k, message, w, notice, now, outcome)
      ensures old(store.mode).Monitor? && !IsTest(k) && !HasStatus(old(store.Contents()), k, Challenged) ==>
        OnlyObserved(actions) &&
        (StatusOf(store.Contents(), k) == Allowed ||
         store.rows == Landed(Renewed(old(store.Contents()), k, now), k, w.afterRead).rows)
    {
      ghost var renewed := Renewed(store.Contents(), k, now);
      LandedAs(renewed, k, w.afterRead);
      var state, settled := SettleBeforeScreening(k, message, actions, w.afterRead, now);
      if settled.Some? {
        return settled.value;
      }
      ghost var read := store.Contents();
      outcome := HandleOpen(k, state, message, envelope, challenge, actions, w, notice, now);
      SameQuestioned(Tables.Sender(store.Contents(), k), old(store.Contents()), read, k, message, challenge, now);
    }

    method HandleOpen(k: Key, state: Row, message: Incoming, envelope: Option<Blob>, challenge: Challenge,
                      actions: Actions, w: Weather, notice: Sending, now: Time)
      returns (outcome: Outcome)
      requires Outbound.Valid(quota)
      requires ReadBefore(store.Contents(), k, state) && !Settles(state, message, IsTest(k))
      requires state.status.Challenged? ==> state.expiresAt.Some?
      modifies store, actions
      ensures Tells(store.Contents(), k, outcome) ||
        (store.rows == old(store.rows) && old(Tables.Sender(store.Contents(), k)) != state)
      ensures OnlyTouches(old(store.Contents()), store.Contents(), k) && !outcome.Duplicate?
      ensures actions.timers - {k} == old(actions.timers) - {k}
      ensures DeletionsBound(store.Contents(), old(actions.deletions), actions.deletions, k)
      ensures Charged(k, outcome, old(store.events), store.events, old(actions.sent), actions.sent, now)
      ensures outcome.Started? ==>
        k in store.rows && Questioned(store.rows[k], old(store.Contents()), k, message, challenge, now)
      ensures HandledOpen(state, old(store.Contents()), store.Contents(), old(actions.deletions), actions.deletions,
                          k, message, w, notice, now, outcome)
      ensures old(store.mode).Monitor? && !IsTest(k) && !state.status.Challenged? ==>
        OnlyObserved(actions) && store.rows == old(store.rows)
    {
      if !w.screens {
        return FailSafe;
      }
      ProfileByPoints(store.Contents(), k, message.facts, now);
      var signals := EvidenceSignals(k, message.facts, now);
      outcome := Screen(k, state, message, DecisionFor(k, signals), signals != [], envelope, challenge, actions, w,
                        notice, now);
    }

    /** The question put for a message: the challenge at hand, and strict exactly from 30 points on. */
    ghost predicate Questioned(row: Row, db: Db, k: Key, message: Incoming, challenge: Challenge, now: Time) {
      row.challengeId == Some(challenge.id) && row.answerDigest == Some(challenge.digest) &&
      row.actionReference == message.reference && row.attempts == 0 && !row.guidanceSent &&
      row.profile == Some(if !IsTest(k) && PointsOf(db, k, message.facts, now) >= 30 then Strict else Standard)
    }

    /** What the message's signals weigh together. */
    ghost function PointsOf(db: Db, k: Key, facts: Rules.Facts, now: Time): int {
      Rules.Points(CaseOf(db, k, facts, now), Repeated(db, k, facts, now))
    }

    lemma ProfileByPoints(db: Db, k: Key, facts: Rules.Facts, now: Time)
      ensures var decision := DecisionFor(k, SignalsOf(db, k, facts, now));
        decision.Ask? ==>
          decision.profile == if !IsTest(k) && PointsOf(db, k, facts, now) >= 30 then Strict else Standard
    {
      Rules.ScoreIsPoints(CaseOf(db, k, facts, now), Repeated(db, k, facts, now));
    }

    /** A quoted link on the owner's list is by itself enough to be asked strictly. */
    lemma QuotedDenialIsAskedStrictly(row: Row, db: Db, k: Key, message: Incoming, challenge: Challenge, now: Time)
      requires Questioned(row, db, k, message, challenge, now) && !IsTest(k)
      requires exists i :: 0 <= i < |message.facts.quoteDomains| && message.facts.quoteDomains[i] in denylist
      requires message.facts.domains == []
      ensures row.profile == Some(Strict)
    {
      Rules.QuotedDenialIsStrict(CaseOf(db, k, message.facts, now), Repeated(db, k, message.facts, now));
    }

    /** A message with nothing to it, opener or not, is asked in the standard way. */
    lemma PlainIsAskedPlainly(row: Row, db: Db, k: Key, message: Incoming, challenge: Challenge, now: Time)
      requires Questioned(row, db, k, message, challenge, now)
      requires Rules.Plain(CaseOf(db, k, message.facts, now)) && !Repeated(db, k, message.facts, now)
      ensures row.profile == Some(Standard)
    {
      Rules.PlainIsStandard(CaseOf(db, k, message.facts, now));
    }

    lemma SameQuestioned(row: Row, a: Db, b: Db, k: Key, message: Incoming, challenge: Challenge, now: Time)
      requires a.events.links == b.events.links && a.events.campaign == b.events.campaign
      ensures Questioned(row, a, k, message, challenge, now) <==> Questioned(row, b, k, message, challenge, now)
    {
      assert CaseOf(a, k, message.facts, now) == CaseOf(b, k, message.facts, now);
    }

    lemma SameSignals(a: Db, b: Db, k: Key, facts: Rules.Facts, now: Time)
      requires a.events.links == b.events.links && a.events.campaign == b.events.campaign
      ensures SignalsOf(a, k, facts, now) == SignalsOf(b, k, facts, now)
    {
      assert CaseOf(a, k, facts, now) == CaseOf(b, k, facts, now);
    }

    lemma RenewedSchedulesNothing(db: Db, k: Key, now: Time)
      ensures Renewed(db, k, now).nextJob == db.nextJob
    {}

    /** The deletion after the last wrong answer goes by the reference of the reply itself, unless that is missing or
        empty; then by the one stored with the challenge. */
    lemma ExhaustedFindsTheSender(db: Db, db': Db, deletions: map<nat, Time>, deletions': map<nat, Time>, k: Key,
                                  message: Option<Blob>, stored: Option<Blob>, outcome: Outcome, notice: Sending,
                                  now: Time)
      requires Exhausted(db, db', deletions, deletions', k, OrElse(message, stored), outcome, notice, now)
      requires Told(db, k, notice, now)
      ensures message.Some? && message.value != [] ==>
        db.nextJob in db'.jobs && db'.jobs[db.nextJob].reference == message.value
      ensures (message.None? || message.value == []) && stored.Some? ==>
        db.nextJob in db'.jobs && db'.jobs[db.nextJob].reference == stored.value
      ensures (message.None? || message.value == []) && stored.None? ==> db'.jobs == db.jobs
    {}

    /** A reply never leads to a deletion the sender was not told about. */
    lemma AnsweredTells(db: Db, db': Db, deletions: map<nat, Time>, deletions': map<nat, Time>, k: Key,
                        message: Incoming, outcome: Outcome, restores: nat -> bool, notice: Sending, now: Time)
      requires HasStatus(db, k, Challenged)
      requires Answered(db, db', deletions, deletions', k, message, outcome, restores, notice, now)
      ensures Tells(db', k, outcome) && DeletionsBound(db', deletions, deletions', k)
      ensures deletions' != deletions || db'.jobs != db.jobs ==> Told(db, k, notice, now)
    {
      if !Late(db.rows[k], message) && !BeforePrompt(db.rows[k], message) {
        JudgedTells(db, db', deletions, deletions', k, message, outcome, restores, notice, now);
      }
    }

    lemma JudgedTells(db: Db, db': Db, deletions: map<nat, Time>, deletions': map<nat, Time>, k: Key,
                      message: Incoming, outcome: Outcome, restores: nat -> bool, notice: Sending, now: Time)
      requires HasStatus(db, k, Challenged)
      requires Judged(db, db', deletions, deletions', k, message, outcome, restores, notice, now)
      ensures Tells(db', k, outcome) && DeletionsBound(db', deletions, deletions', k)
      ensures deletions' != deletions || db'.jobs != db.jobs ==> Told(db, k, notice, now)
    {
      var reference := OrElse(message.reference, db.rows[k].actionReference);
      if Exhausted(db, db', deletions, deletions', k, reference, outcome, notice, now) {
        ExhaustedTells(db, db', deletions, deletions', k, reference, outcome, notice, now);
      }
    }

    lemma ExhaustedTells(db: Db, db': Db, deletions: map<nat, Time>, deletions': map<nat, Time>, k: Key,
                         reference: Option<Blob>, outcome: Outcome, notice: Sending, now: Time)
      requires Exhausted(db, db', deletions, deletions', k, reference, outcome, notice, now)
      ensures Tells(db', k, outcome) && DeletionsBound(db', deletions, deletions', k)
      ensures deletions' != deletions || db'.jobs != db.jobs ==> Told(db, k, notice, now)
    {}

    // -------------------------------------------------------------- which answer is right

    /** A reply that is judged: sent by the deadline, and not older than the prompt unless it answers it. */
    predicate Counts(row: Row, message: Incoming) {
      row.expiresAt.Some? && row.expiresAt.value != 0 && message.sentAt <= row.expiresAt.value &&
      (row.messageId.None? || message.id >= row.messageId.value || message.replyTo == row.messageId)
    }

    /** The number whose digest is stored with the challenge; the empty digest is nobody's. */
    predicate Right(row: Row, message: Incoming) {
      match (row.answerDigest, message.answer)
      case (Some(stored), Some(given)) => stored == given && given != ""
      case _ => false
    }

    ghost predicate Wrong(row: Row, message: Incoming) {
      Counts(row, message) && message.answer.Some? && !Right(row, message)
    }

    /** A challenged sender gets through exactly with a reply in time whose digest is the stored one, and only once
        its dialog was given back within three tries. */
    lemma PassesExactlyWhenRight(db: Db, db': Db, deletions: map<nat, Time>, deletions': map<nat, Time>, k: Key,
                                 message: Incoming, outcome: Outcome, restores: nat -> bool, notice: Sending, now: Time)
      requires HasStatus(db, k, Challenged)
      requires Answered(db, db', deletions, deletions', k, message, outcome, restores, notice, now)
      ensures HasStatus(db', k, Provisional) <==>
        Counts(db.rows[k], message) && Right(db.rows[k], message) && (restores(0) || restores(1) || restores(2))
      ensures outcome.Passed? <==> HasStatus(db', k, Provisional)
    {
      if !Late(db.rows[k], message) && !BeforePrompt(db.rows[k], message) {
        JudgedPasses(db, db', deletions, deletions', k, message, outcome, restores, notice, now);
      }
    }

    lemma JudgedPasses(db: Db, db': Db, deletions: map<nat, Time>, deletions': map<nat, Time>, k: Key,
                       message: Incoming, outcome: Outcome, restores: nat -> bool, notice: Sending, now: Time)
      requires HasStatus(db, k, Challenged)
      requires Judged(db, db', deletions, deletions', k, message, outcome, restores, notice, now)
      ensures HasStatus(db', k, Provisional) <==>
        Right(db.rows[k], message) && (restores(0) || restores(1) || restores(2))
      ensures outcome.Passed? <==> HasStatus(db', k, Provisional)
    {
      if restores(0) || restores(1) || restores(2) {
        assert Restores(restores);
      }
    }

    /** Any other number in time costs an attempt, or ends the challenge when it was the last one: the first wrong
        answer to a strict question, the configured number of them otherwise. */
    lemma WrongAnswersCost(db: Db, db': Db, deletions: map<nat, Time>, deletions': map<nat, Time>, k: Key,
                           message: Incoming, outcome: Outcome, restores: nat -> bool, notice: Sending, now: Time)
      requires HasStatus(db, k, Challenged) && Wrong(db.rows[k], message)
      requires Answered(db, db', deletions, deletions', k, message, outcome, restores, notice, now)
      ensures k in db'.rows
      ensures var row := db.rows[k];
        if row.profile != Some(Strict) && row.attempts + 1 < maxAttempts then
          db'.rows[k] == row.(attempts := row.attempts + 1, updatedAt := now)
        else db'.rows[k].status.Quarantined? || db'.rows[k].status.Suppressed?
    {}

    /** As long as the challenge runs, the question, its deadline and its message stay; only wrong answers cost. */
    lemma QuestionStays(db: Db, db': Db, deletions: map<nat, Time>, deletions': map<nat, Time>, k: Key,
                        message: Incoming, outcome: Outcome, restores: nat -> bool, notice: Sending, now: Time)
      requires HasStatus(db, k, Challenged) && HasStatus(db', k, Challenged)
      requires Answered(db, db', deletions, deletions', k, message, outcome, restores, notice, now)
      ensures var row, row' := db.rows[k], db'.rows[k];
        row'.challengeId == row.challengeId && row'.answerDigest == row.answerDigest && row'.profile == row.profile &&
        row'.expiresAt == row.expiresAt && row'.messageId == row.messageId &&
        row'.attempts == row.attempts + (if Wrong(row, message) then 1 else 0)
    {}

    /** The wrong answers among the first `n` replies. */
    ghost function WrongAmong(row: Row, replies: seq<Reply>, n: nat): nat
      requires n <= |replies|
    {
      if n == 0 then 0 else WrongAmong(row, replies, n - 1) + (if Wrong(row, replies[n - 1].message) then 1 else 0)
    }

    /** Replies to a running challenge, one after the other. */
    ghost predicate Replied(dbs: seq<Db>, replies: seq<Reply>, k: Key) {
      |dbs| == |replies| + 1 && forall i :: 0 <= i < |replies| ==> RepliedAt(dbs, replies, k, i)
    }

    ghost predicate RepliedAt(dbs: seq<Db>, replies: seq<Reply>, k: Key, i: nat)
      requires i < |replies| && |dbs| == |replies| + 1
    {
      var r := replies[i];
      HasStatus(dbs[i], k, Challenged) &&
      Answered(dbs[i], dbs[i + 1], r.deletions, r.deletions', k, r.message, r.outcome, r.restores, r.notice, r.now)
    }

    lemma {:induction false} QuestionStaysThroughout(dbs: seq<Db>, replies: seq<Reply>, k: Key, n: nat)
      requires Replied(dbs, replies, k) && n < |replies|
      ensures var row, row' := Tables.Sender(dbs[0], k), Tables.Sender(dbs[n], k);
        row'.challengeId == row.challengeId && row'.answerDigest == row.answerDigest && row'.profile == row.profile &&
        row'.expiresAt == row.expiresAt && row'.messageId == row.messageId &&
        row'.attempts == row.attempts + WrongAmong(row, replies, n)
    {
      assert RepliedAt(dbs, replies, k, 0) && RepliedAt(dbs, replies, k, n);
      if n > 0 {
        QuestionStaysThroughout(dbs, replies, k, n - 1);
        assert RepliedAt(dbs, replies, k, n - 1);
        var r := replies[n - 1];
        QuestionStays(dbs[n - 1], dbs[n], r.deletions, r.deletions', k, r.message, r.outcome, r.restores, r.notice,
          r.now);
      }
    }

    /** From the question to the pass: however many replies come in between, the sender gets through exactly with the
        digest of the challenge that was issued, in time and with the dialog given back; and until then its attempts
        are the other numbers it sent in time. */
    lemma PassesWithTheIssuedDigest(dbs: seq<Db>, replies: seq<Reply>, k: Key, challenge: Challenge)
      requires Replied(dbs, replies, k) && replies != []
      requires Tables.Sender(dbs[0], k).answerDigest == Some(challenge.digest) && Tables.Sender(dbs[0], k).attempts == 0
      ensures var row, last := Tables.Sender(dbs[0], k), replies[|replies| - 1];
        HasStatus(dbs[|replies|], k, Provisional) <==>
          Counts(row, last.message) && last.message.answer == Some(challenge.digest) && challenge.digest != "" &&
          (last.restores(0) || last.restores(1) || last.restores(2))
      ensures var n := |replies| - 1;
        Tables.Sender(dbs[n], k).attempts == WrongAmong(Tables.Sender(dbs[0], k), replies, n)
    {
      var n := |replies| - 1;
      assert RepliedAt(dbs, replies, k, 0) && RepliedAt(dbs, replies, k, n);
      QuestionStaysThroughout(dbs, replies, k, n);
      var r := replies[n];
      PassesExactlyWhenRight(dbs[n], dbs[n + 1], r.deletions, r.deletions', k, r.message, r.outcome, r.restores,
        r.notice, r.now);
    }

    /** A message the state alone did not settle. */
    method Screen(k: Key, state: Row, message: Incoming, decision: Decision, signals: bool, envelope: Option<Blob>,
                  challenge: Challenge, actions: Actions, w: Weather, notice: Sending, now: Time)
      returns (outcome: Outcome)
      requires Outbound.Valid(quota)
      requires ReadBefore(store.Contents(), k, state) && !Settles(state, message, IsTest(k))
      requires state.status.Challenged? ==> state.expiresAt.Some?
      requires IsTest(k) ==> decision.Ask?
      modifies store, actions
      ensures Tells(store.Contents(), k, outcome) ||
        (store.rows == old(store.rows) && old(Tables.Sender(store.Contents(), k)) != state)
      ensures OnlyTouches(old(store.Contents()), store.Contents(), k)
      ensures actions.timers - {k} == old(actions.timers) - {k}
      ensures DeletionsBound(store.Contents(), old(actions.deletions), actions.deletions, k)
      ensures Charged(k, outcome, old(store.events), store.events, old(actions.sent), actions.sent, now)
      ensures Screened(state, old(store.Contents()), store.Contents(), old(actions.deletions), actions.deletions, k,
                       message, decision, signals, w, notice, now, outcome)
      ensures outcome.Started? ==>
        decision.Ask? && k in store.rows && Asks(store.rows[k], challenge, message.reference, decision.profile)
      ensures !outcome.Duplicate?
      ensures old(store.mode).Monitor? && !IsTest(k) && !state.status.Challenged? ==>
        OnlyObserved(actions) && store.rows == old(store.rows)
    {
      ghost var before, deletions := store.Contents(), actions.deletions;
      if decision.Permanent? {
        outcome := Enact(k, state, message, decision, signals, envelope, actions, w, notice, now);
        return;
      }
      if state.status.Provisional? && !signals {
        return Passed;
      }
      if state.status.Challenged? {
        outcome := HandleChallenge(k, state, message, actions, w.restores, notice, now);
        AnsweredTells(before, store.Contents(), deletions, actions.deletions, k, message, outcome, w.restores,
          notice, now);
        return;
      }
      outcome := Ask(k, state, message, decision, signals, envelope, challenge, actions, w, notice, now);
    }

    /** A question, which monitor mode only names. */
    method Ask(k: Key, state: Row, message: Incoming, decision: Decision, signals: bool, envelope: Option<Blob>,
               challenge: Challenge, actions: Actions, w: Weather, notice: Sending, now: Time)
      returns (outcome: Outcome)
      requires Outbound.Valid(quota) && decision.Ask?
      requires !state.status.Challenged? && !(state.status.Provisional? && !signals)
      modifies store, actions
      ensures Tells(store.Contents(), k, outcome) && !outcome.Duplicate?
      ensures OnlyTouches(old(store.Contents()), store.Contents(), k)
      ensures actions.timers - {k} == old(actions.timers) - {k} && actions.deletions == old(actions.deletions)
      ensures Charged(k, outcome, old(store.events), store.events, old(actions.sent), actions.sent, now)
      ensures Screened(state, old(store.Contents()), store.Contents(), old(actions.deletions), actions.deletions, k,
                       message, decision, signals, w, notice, now, outcome)
      ensures outcome.Started? ==>
        k in store.rows && Asks(store.rows[k], challenge, message.reference, decision.profile)
      ensures old(store.mode).Monitor? && !IsTest(k) ==> OnlyObserved(actions) && store.rows == old(store.rows)
    {
      if store.mode.Monitor? && !IsTest(k) {
        AskOwner(k, message.reference, "would_challenge", now);
        return WouldChallenge;
      }
      outcome := IssueChallenge(k, message.reference, envelope, challenge, decision.profile, actions, w, now);
    }

    /** The destructive answer, which monitor mode only names. */
    method Enact(k: Key, state: Row, message: Incoming, decision: Decision, signals: bool, envelope: Option<Blob>,
                 actions: Actions, w: Weather, notice: Sending, now: Time)
      returns (outcome: Outcome)
      requires decision.Permanent?
      modifies store, actions
      ensures store.events == old(store.events) && actions.sent == old(actions.sent)
      ensures Tells(store.Contents(), k, outcome) && !outcome.Duplicate?
      ensures OnlyTouches(old(store.Contents()), store.Contents(), k)
      ensures actions.timers - {k} == old(actions.timers) - {k}
      ensures DeletionsBound(store.Contents(), old(actions.deletions), actions.deletions, k)
      ensures Screened(state, old(store.Contents()), store.Contents(), old(actions.deletions), actions.deletions, k,
                       message, decision, signals, w, notice, now, outcome)
      ensures !outcome.Started? && !outcome.QuarantinedRateLimited?
      ensures old(store.mode).Monitor? ==> OnlyObserved(actions) && store.rows == old(store.rows)
    {
      if store.mode.Monitor? {
        AskOwner(k, message.reference, "would_delete", now);
        return WouldDelete;
      }
      Capture(k, message.reference, envelope, "permanent_suppression", now);
      outcome := SchedulePermanentSuppression(k, message, actions, now);
    }

    // -------------------------------------------------------------- from the message to the restriction

    ghost predicate SuppressedForGood(db: Db, k: Key) {
      HasStatus(db, k, Suppressed) && db.rows[k].suppressedUntil.None?
    }

    lemma DeniedOrRepeated(db: Db, k: Key, facts: Rules.Facts, now: Time)
      requires !IsTest(k)
      ensures var c := CaseOf(db, k, facts, now);
        DecisionFor(k, SignalsOf(db, k, facts, now)).Permanent? <==>
          Rules.DeniedUnquoted(c) ||
          (Repeated(db, k, facts, now) && (Rules.ForwardedCampaign(c) || Rules.PreviewCampaign(c)))
    {
      Rules.SuppressedExactlyWhen(CaseOf(db, k, facts, now), Repeated(db, k, facts, now));
    }

    /** A delivery or a reply never suppresses without an end. */
    lemma OnlyPermanentIsForGood(row: Row, db: Db, db': Db, deletions: map<nat, Time>, deletions': map<nat, Time>,
                                 k: Key, message: Incoming, decision: Decision, signals: bool, w: Weather,
                                 notice: Sending, now: Time, outcome: Outcome)
      requires ReadBefore(db, k, row) && !Settles(row, message, IsTest(k)) && !IsTest(k)
      requires Screened(row, db, db', deletions, deletions', k, message, decision, signals, w, notice, now, outcome)
      ensures SuppressedForGood(db', k) <==> decision.Permanent? && db.mode.Protect? && message.reference.Some?
    {
      if decision.Permanent? {
      } else if row.status.Challenged? {
        RepliesAreNotForGood(db, db', deletions, deletions', k, message, outcome, w.restores, notice, now);
      } else if db.mode.Protect? && !(row.status.Provisional? && !signals) {
        QuestionsAreNotForGood(db, db', k, message.reference, w, now);
      }
    }

    lemma QuestionsAreNotForGood(db: Db, db': Db, k: Key, reference: Option<Blob>, w: Weather, now: Time)
      requires Issued(db, db', k, reference, w, now) && !Tables.Sender(db, k).status.Suppressed?
      ensures !SuppressedForGood(db', k)
    {}

    lemma RepliesAreNotForGood(db: Db, db': Db, deletions: map<nat, Time>, deletions': map<nat, Time>, k: Key,
                               message: Incoming, outcome: Outcome, restores: nat -> bool, notice: Sending, now: Time)
      requires HasStatus(db, k, Challenged) && !IsTest(k)
      requires Answered(db, db', deletions, deletions', k, message, outcome, restores, notice, now)
      ensures !SuppressedForGood(db', k)
    {}

    /** From the message to the restriction: what the row read leaves open ends in a suppression for good exactly in
        protect mode, with a reference, for a link of the message itself on the owner's list, or for a campaign
        that another sender showed within seven days and that is forwarded promotion or a promoting preview. */
    lemma SuppressedForGoodExactlyWhen(db: Db, db': Db, deletions: map<nat, Time>, deletions': map<nat, Time>, k: Key,
                                       message: Incoming, w: Weather, notice: Sending, now: Time, outcome: Outcome)
      requires HandledNew(db, db', deletions, deletions', k, message, w, notice, now, outcome)
      requires !Settles(Tables.Sender(db, k), message, IsTest(k)) && !IsTest(k)
      ensures var c, facts := CaseOf(db, k, message.facts, now), message.facts;
        SuppressedForGood(db', k) <==>
          w.screens && db.mode.Protect? && message.reference.Some? &&
          (Rules.DeniedUnquoted(c) ||
           (Repeated(db, k, facts, now) && (Rules.ForwardedCampaign(c) || Rules.PreviewCampaign(c))))
    {
      LandedAs(db, k, w.afterRead);
      if !w.screens {
        return;
      }
      DeniedOrRepeated(db, k, message.facts, now);
      var seen, signals := Seen(db, k, message, w, now), SignalsOf(db, k, message.facts, now);
      LeftToScreening(db, seen, db', deletions, deletions', k, message, w, notice, now, outcome);
      OnlyPermanentIsForGood(Tables.Sender(db, k), seen, db', deletions, deletions', k, message,
        DecisionFor(k, signals), signals != [], w, notice, now, outcome);
    }

    /** What the database is when a message comes to be screened. */
    function Seen(db: Db, k: Key, message: Incoming, w: Weather, now: Time): Db {
      Observed(Landed(db, k, w.afterRead), k, message.facts, now)
    }

    lemma LeftToScreening(db: Db, seen: Db, db': Db, deletions: map<nat, Time>, deletions': map<nat, Time>, k: Key,
                          message: Incoming, w: Weather, notice: Sending, now: Time, outcome: Outcome)
      requires HandledNew(db, db', deletions, deletions', k, message, w, notice, now, outcome)
      requires !Settles(Tables.Sender(db, k), message, IsTest(k)) && w.screens && seen == Seen(db, k, message, w, now)
      ensures ReadBefore(seen, k, Tables.Sender(db, k))
      ensures seen.mode == db.mode && seen.events.outbound == db.events.outbound
      ensures var signals := SignalsOf(db, k, message.facts, now);
        Screened(Tables.Sender(db, k), seen, db', deletions, deletions', k, message, DecisionFor(k, signals),
                 signals != [], w, notice, now, outcome)
    {
      LandedAs(db, k, w.afterRead);
      SameSignals(db, Landed(db, k, w.afterRead), k, message.facts, now);
    }

    /** A reply that is judged by the deadline alone: the challenge is over. */
    ghost predicate EndsLate(db: Db, k: Key, message: Incoming, now: Time) {
      HasStatus(db, k, Challenged) && Late(db.rows[k], message) &&
      DecisionFor(k, SignalsOf(db, k, message.facts, now)).Ask?
    }

    /** The answer `suppressed` goes with the suppressed status, except exactly for the late reply of an ordinary
        sender who could not be told or cannot be found again. */
    lemma SuppressedExactlyWhenTold(db: Db, db': Db, deletions: map<nat, Time>, deletions': map<nat, Time>, k: Key,
                                    message: Incoming, w: Weather, notice: Sending, now: Time, outcome: Outcome)
      requires HandledNew(db, db', deletions, deletions', k, message, w, notice, now, outcome)
      ensures outcome.Suppressing? ==>
        (HasStatus(db', k, Suppressed) <==>
           !EndsLate(db, k, message, now) || IsTest(k) ||
           (Told(db, k, notice, now) && OrElse(db.rows[k].actionReference, message.reference).Some?))
    {
      LandedAs(db, k, w.afterRead);
      if outcome.Suppressing? && !Settles(Tables.Sender(db, k), message, IsTest(k)) {
        var seen, signals := Seen(db, k, message, w, now), SignalsOf(db, k, message.facts, now);
        LeftToScreening(db, seen, db', deletions, deletions', k, message, w, notice, now, outcome);
        ScreenedTold(Tables.Sender(db, k), seen, db', deletions, deletions', k, message, DecisionFor(k, signals),
          signals != [], w, notice, now, outcome);
      }
    }

    lemma ScreenedTold(row: Row, db: Db, db': Db, deletions: map<nat, Time>, deletions': map<nat, Time>, k: Key,
                       message: Incoming, decision: Decision, signals: bool, w: Weather, notice: Sending, now: Time,
                       outcome: Outcome)
      requires ReadBefore(db, k, row) && !Settles(row, message, IsTest(k)) && outcome.Suppressing?
      requires Screened(row, db, db', deletions, deletions', k, message, decision, signals, w, notice, now, outcome)
      ensures HasStatus(db', k, Suppressed) <==>
              !(HasStatus(db, k, Challenged) && Late(db.rows[k], message) && decision.Ask?) || IsTest(k) ||
              (Told(db, k, notice, now) && OrElse(db.rows[k].actionReference, message.reference).Some?)
    {
      if decision.Ask? && row.status.Challenged? && !Late(row, message) {
        JudgedTold(db, db', deletions, deletions', k, message, outcome, w.restores, notice, now);
      }
    }

    lemma JudgedTold(db: Db, db': Db, deletions: map<nat, Time>, deletions': map<nat, Time>, k: Key,
                     message: Incoming, outcome: Outcome, restores: nat -> bool, notice: Sending, now: Time)
      requires HasStatus(db, k, Challenged) && outcome.Suppressing?
      requires Judged(db, db', deletions, deletions', k, message, outcome, restores, notice, now) ||
               (BeforePrompt(db.rows[k], message) && outcome == Ignored)
      ensures HasStatus(db', k, Suppressed)
    {}

    // -------------------------------------------------------------- from the owner's command to the row

    /** The command line wrote to the row after it was read: the sender's state did not forbid it. */
    ghost predicate Lands(row: Row, w: Weather) {
      !w.afterRead.Nobody? && !DashboardOnly(row.status)
    }

    /** The row read lets the sender through, and allows it with a write of its own. */
    predicate LetsIn(row: Row, message: Incoming, test: bool) {
      !test && !row.status.Suppressed? &&
      (message.trusted || (message.trustedHistory && (row.status.Unknown? || row.status.Provisional?)))
    }

    /** The message leads to a suppression for good. */
    ghost predicate Suppresses(db: Db, k: Key, message: Incoming, w: Weather, now: Time) {
      w.screens && DecisionFor(k, SignalsOf(db, k, message.facts, now)).Permanent? && db.mode.Protect? &&
      message.reference.Some?
    }

    /** The message leads to a question, or to an archive without one. */
    ghost predicate Issues(row: Row, db: Db, k: Key, message: Incoming, w: Weather, now: Time) {
      var signals := SignalsOf(db, k, message.facts, now);
      w.screens && Questions(row, db, k, DecisionFor(k, signals), signals != [])
    }

    predicate Questions(row: Row, db: Db, k: Key, decision: Decision, signals: bool) {
      decision.Ask? && !row.status.Challenged? && !(row.status.Provisional? && !signals) &&
      (db.mode.Protect? || IsTest(k))
    }

    /** Whether screening ends with the sender allowed, by what the database says of it when screening begins. */
    ghost predicate StaysAllowed(row: Row, db: Db, k: Key, decision: Decision, signals: bool, message: Incoming,
                                 w: Weather, now: Time)
    {
      if decision.Permanent? && db.mode.Protect? && message.reference.Some? then false
      else if Questions(row, db, k, decision, signals) then IssueAllows(db, k, w, now)
      else StatusOf(db, k).Allowed?
    }

    /** Whether issuing a challenge leaves the sender allowed. */
    ghost predicate IssueAllows(db: Db, k: Key, w: Weather, now: Time) {
      if SlotFree(db, k, true, now) then LastRace(w).OwnerAllows?
      else
        !w.archive.Done? &&
        (if w.afterArchive.Nobody? then StatusOf(db, k).Allowed? else w.afterArchive.OwnerAllows?)
    }

    lemma IssuedAllowed(db: Db, db': Db, k: Key, reference: Option<Blob>, w: Weather, now: Time)
      requires Issued(db, db', k, reference, w, now)
      ensures StatusOf(db', k).Allowed? <==> IssueAllows(db, k, w, now)
    {
      if SlotFree(db, k, true, now) {
        OwnerHasTheLastWord(db', k, w, ttl);
      } else {
        StruckAs(db, k, w.afterArchive);
      }
    }

    lemma AnsweredNotAllowed(db: Db, db': Db, deletions: map<nat, Time>, deletions': map<nat, Time>, k: Key,
                             message: Incoming, outcome: Outcome, restores: nat -> bool, notice: Sending, now: Time)
      requires HasStatus(db, k, Challenged)
      requires Answered(db, db', deletions, deletions', k, message, outcome, restores, notice, now)
      ensures !StatusOf(db', k).Allowed?
    {}

    lemma ScreenedAllowed(row: Row, db: Db, db': Db, deletions: map<nat, Time>, deletions': map<nat, Time>, k: Key,
                          message: Incoming, decision: Decision, signals: bool, w: Weather, notice: Sending, now: Time,
                          outcome: Outcome)
      requires ReadBefore(db, k, row) && !Settles(row, message, IsTest(k))
      requires Screened(row, db, db', deletions, deletions', k, message, decision, signals, w, notice, now, outcome)
      ensures StatusOf(db', k).Allowed? <==> StaysAllowed(row, db, k, decision, signals, message, w, now)
    {
      if decision.Permanent? {
      } else if row.status.Provisional? && !signals {
      } else if row.status.Challenged? {
        AnsweredNotAllowed(db, db', deletions, deletions', k, message, outcome, w.restores, notice, now);
      } else if db.mode.Protect? || IsTest(k) {
        IssuedAllowed(db, db', k, message.reference, w, now);
      }
    }

    /** When a message ends with the sender allowed, whatever commands land while it is handled. */
    ghost predicate AllowedAfterwards(db: Db, k: Key, message: Incoming, w: Weather, now: Time) {
      var row := Tables.Sender(db, k);
      var allows := Lands(row, w) && w.afterRead.OwnerAllows?;
      if Settles(row, message, IsTest(k)) then
        LetsIn(row, message, IsTest(k)) || allows || (row.status.Allowed? && !Lands(row, w))
      else if Suppresses(db, k, message, w, now) then false
      else if Issues(row, db, k, message, w, now) then
        if SlotFree(db, k, true, now) then LastRace(w).OwnerAllows?
        else !w.archive.Done? && (if w.afterArchive.Nobody? then allows else w.afterArchive.OwnerAllows?)
      else allows
    }

    /** A sender is allowed after a message exactly if it was let in, or if the owner's last command was to allow it
        and nothing was written over that: not the suppression, not the begun challenge - which with a free slot
        overwrites whatever landed before it - and not the quarantine behind a confirmed archive without a slot. */
    lemma AllowedExactlyWhen(db: Db, db': Db, deletions: map<nat, Time>, deletions': map<nat, Time>, k: Key,
                             message: Incoming, w: Weather, notice: Sending, now: Time, outcome: Outcome)
      requires HandledNew(db, db', deletions, deletions', k, message, w, notice, now, outcome)
      ensures StatusOf(db', k).Allowed? <==> AllowedAfterwards(db, k, message, w, now)
    {
      var row := Tables.Sender(db, k);
      if Settles(row, message, IsTest(k)) {
        SettledAllowed(row, db, db', deletions, deletions', k, message, w, notice, now, outcome);
      } else if w.screens {
        var seen, signals := Seen(db, k, message, w, now), SignalsOf(db, k, message.facts, now);
        LeftToScreening(db, seen, db', deletions, deletions', k, message, w, notice, now, outcome);
        ScreenedAllowed(row, seen, db', deletions, deletions', k, message, DecisionFor(k, signals), signals != [], w,
          notice, now, outcome);
        SeenAs(row, db, seen, k, message, w, now);
        StaysAllowedAs(row, db, seen, k, message, signals, w, now);
      } else {
        UnscreenedAllowed(row, db, db', deletions, deletions', k, message, w, notice, now, outcome);
      }
    }

    lemma SeenAs(row: Row, db: Db, seen: Db, k: Key, message: Incoming, w: Weather, now: Time)
      requires row == Tables.Sender(db, k) && seen == Seen(db, k, message, w, now)
      ensures seen.mode == db.mode && SlotFree(seen, k, true, now) == SlotFree(db, k, true, now)
      ensures !row.status.Allowed? ==> (StatusOf(seen, k).Allowed? <==> Lands(row, w) && w.afterRead.OwnerAllows?)
      ensures Lands(row, w) && w.afterRead.OwnerRevokes? ==> StatusOf(seen, k).Unknown?
    {
      var landed := Landed(db, k, w.afterRead);
      LandedAs(db, k, w.afterRead);
      if !row.status.Allowed? { LandedAllowed(row, db, k, w); }
      assert seen.rows == landed.rows && seen.events.outbound == db.events.outbound;
    }

    lemma StaysAllowedAs(row: Row, db: Db, seen: Db, k: Key, message: Incoming, signals: seq<Policy.Signal>, w: Weather,
                         now: Time)
      requires row == Tables.Sender(db, k) && !Settles(row, message, IsTest(k)) && w.screens
      requires seen.mode == db.mode && SlotFree(seen, k, true, now) == SlotFree(db, k, true, now)
      requires StatusOf(seen, k).Allowed? <==> Lands(row, w) && w.afterRead.OwnerAllows?
      requires signals == SignalsOf(db, k, message.facts, now)
      ensures StaysAllowed(row, seen, k, DecisionFor(k, signals), signals != [], message, w, now) <==>
              AllowedAfterwards(db, k, message, w, now)
    {}

    lemma UnscreenedAllowed(row: Row, db: Db, db': Db, deletions: map<nat, Time>, deletions': map<nat, Time>, k: Key,
                            message: Incoming, w: Weather, notice: Sending, now: Time, outcome: Outcome)
      requires row == Tables.Sender(db, k) && !Settles(row, message, IsTest(k)) && !w.screens
      requires HandledNew(db, db', deletions, deletions', k, message, w, notice, now, outcome)
      ensures StatusOf(db', k).Allowed? <==> AllowedAfterwards(db, k, message, w, now)
    {
      LandedAllowed(row, db, k, w);
    }

    lemma LandedAllowed(row: Row, db: Db, k: Key, w: Weather)
      requires row == Tables.Sender(db, k) && !row.status.Allowed?
      ensures StatusOf(Landed(db, k, w.afterRead), k).Allowed? <==> Lands(row, w) && w.afterRead.OwnerAllows?
    {}

    lemma SettledAllowed(row: Row, db: Db, db': Db, deletions: map<nat, Time>, deletions': map<nat, Time>, k: Key,
                         message: Incoming, w: Weather, notice: Sending, now: Time, outcome: Outcome)
      requires row == Tables.Sender(db, k) && Settles(row, message, IsTest(k))
      requires HandledNew(db, db', deletions, deletions', k, message, w, notice, now, outcome)
      ensures StatusOf(db', k).Allowed? <==>
        LetsIn(row, message, IsTest(k)) || (Lands(row, w) && w.afterRead.OwnerAllows?) ||
        (row.status.Allowed? && !Lands(row, w))
    {
      LandedAs(db, k, w.afterRead);
    }

    /** When a revocation that lands after the row was read is the owner's last command, and is written over. */
    ghost predicate WrittenOver(db: Db, k: Key, message: Incoming, w: Weather, now: Time) {
      var row := Tables.Sender(db, k);
      if Settles(row, message, IsTest(k)) then LetsIn(row, message, IsTest(k))
      else
        Suppresses(db, k, message, w, now) ||
        (Issues(row, db, k, message, w, now) &&
         (if SlotFree(db, k, true, now) then Succeeds(w) || GivesUp(w) else w.archive.Done?))
    }

    /** Such a revocation leaves the sender unknown exactly if it is not written over: a challenge begun and taken
        back leaves the sender unknown, too. */
    lemma RevocationStandsExactlyWhen(db: Db, db': Db, deletions: map<nat, Time>, deletions': map<nat, Time>, k: Key,
                                      message: Incoming, w: Weather, notice: Sending, now: Time, outcome: Outcome)
      requires HandledNew(db, db', deletions, deletions', k, message, w, notice, now, outcome)
      requires Lands(Tables.Sender(db, k), w) && w.afterRead.OwnerRevokes?
      requires w.afterSend.Nobody? && w.afterArchive.Nobody? && w.afterRestore.Nobody?
      ensures StatusOf(db', k).Unknown? <==> !WrittenOver(db, k, message, w, now)
    {
      var row := Tables.Sender(db, k);
      if Settles(row, message, IsTest(k)) || !w.screens {
        UnseenRevoked(row, db, db', deletions, deletions', k, message, w, notice, now, outcome);
      } else {
        var seen, signals := Seen(db, k, message, w, now), SignalsOf(db, k, message.facts, now);
        LeftToScreening(db, seen, db', deletions, deletions', k, message, w, notice, now, outcome);
        SeenAs(row, db, seen, k, message, w, now);
        ScreenedRevoked(row, seen, db', deletions, deletions', k, message, DecisionFor(k, signals), signals != [], w,
          notice, now, outcome);
        WrittenOverAs(row, db, seen, k, message, signals, w, now);
      }
    }

    lemma WrittenOverAs(row: Row, db: Db, seen: Db, k: Key, message: Incoming, signals: seq<Policy.Signal>, w: Weather,
                        now: Time)
      requires row == Tables.Sender(db, k) && !Settles(row, message, IsTest(k)) && w.screens
      requires seen.mode == db.mode && SlotFree(seen, k, true, now) == SlotFree(db, k, true, now)
      requires signals == SignalsOf(db, k, message.facts, now)
      ensures WrittenOver(db, k, message, w, now) <==> ScreenWrites(row, seen, k, message, DecisionFor(k, signals),
        signals != [], w, now)
    {}

    /** Screening restricts the sender, or leaves a challenge. */
    ghost predicate ScreenWrites(row: Row, db: Db, k: Key, message: Incoming, decision: Decision, signals: bool,
                                 w: Weather, now: Time)
    {
      (decision.Permanent? && db.mode.Protect? && message.reference.Some?) ||
      (Questions(row, db, k, decision, signals) &&
       (if SlotFree(db, k, true, now) then Succeeds(w) || GivesUp(w) else w.archive.Done?))
    }

    lemma UnseenRevoked(row: Row, db: Db, db': Db, deletions: map<nat, Time>, deletions': map<nat, Time>, k: Key,
                        message: Incoming, w: Weather, notice: Sending, now: Time, outcome: Outcome)
      requires HandledNew(db, db', deletions, deletions', k, message, w, notice, now, outcome)
      requires row == Tables.Sender(db, k) && Lands(row, w) && w.afterRead.OwnerRevokes?
      requires Settles(row, message, IsTest(k)) || !w.screens
      ensures StatusOf(db', k).Unknown? <==> !(Settles(row, message, IsTest(k)) && LetsIn(row, message, IsTest(k)))
    {
      LandedAs(db, k, w.afterRead);
    }

    lemma ScreenedRevoked(row: Row, db: Db, db': Db, deletions: map<nat, Time>, deletions': map<nat, Time>, k: Key,
                          message: Incoming, decision: Decision, signals: bool, w: Weather, notice: Sending, now: Time,
                          outcome: Outcome)
      requires !DashboardOnly(row.status) && StatusOf(db, k).Unknown? && !Settles(row, message, IsTest(k))
      requires Screened(row, db, db', deletions, deletions', k, message, decision, signals, w, notice, now, outcome)
      requires w.afterSend.Nobody? && w.afterArchive.Nobody? && w.afterRestore.Nobody?
      ensures StatusOf(db', k).Unknown? <==> !ScreenWrites(row, db, k, message, decision, signals, w, now)
    {
      if decision.Ask? && Questions(row, db, k, decision, signals) {
        IssuedUnknown(db, db', k, message.reference, w, now);
      }
    }

    lemma IssuedUnknown(db: Db, db': Db, k: Key, reference: Option<Blob>, w: Weather, now: Time)
      requires Issued(db, db', k, reference, w, now) && StatusOf(db, k).Unknown?
      requires w.afterSend.Nobody? && w.afterArchive.Nobody? && w.afterRestore.Nobody?
      ensures StatusOf(db', k).Unknown? <==>
        !(if SlotFree(db, k, true, now) then Succeeds(w) || GivesUp(w) else w.archive.Done?)
    {}
  }
}
