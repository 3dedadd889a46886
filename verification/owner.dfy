/** What the owner decides in the dashboard, and the worker that carries deletions out. */
module Owner {
  import opened Base
  import opened Tables
  import opened StoreSpec
  import opened StateStore
  import opened Telegram
  import opened ServiceSpec

  datatype Verdict = IsLegitimate | IsSpam | IsNothing

  datatype Refusal = ReviewNotFound | AlreadyDecided | IdentityUnavailable | TelegramActionFailed | NotActive

  /** How the calls of one decision turn out. */
  datatype Conditions = Conditions(
    opens: bool,                  // the reference gives back the account
    telegram: bool,               // the dialog is restored, or archived, as asked
    duringCapture: Race,          // what the command line writes while the evidence is fetched
    duringArchive: Race,          // and while an archive is awaited
    envelope: Option<Blob>)       // sealed evidence, if any could be captured

  /** The command that has the last word before a verdict on a dialog that is not archived yet. */
  function LastCommand(c: Conditions): Race {
    if c.duringArchive.Nobody? then c.duringCapture else c.duringArchive
  }

  lemma StruckTwice(db: Db, k: Key, first: Race, second: Race)
    ensures var db' := Struck(Struck(db, k, first), k, second);
      if !second.Nobody? then Overtaken(db', k, second)
      else if !first.Nobody? then Overtaken(db', k, first)
      else db' == db
  {
    StruckAs(db, k, first);
    StruckAs(Struck(db, k, first), k, second);
  }

  /** No job of the sender can ever be claimed. */
  ghost predicate Unclaimable(db: Db, k: Key) {
    forall id, t :: id in db.jobs && db.jobs[id].key == k ==> Claim(db, id, t).None?
  }

  lemma NoOpenIsUnclaimable(db: Db, k: Key)
    requires NoOpen(db, k)
    ensures Unclaimable(db, k)
  {}

  /** The deletion the owner asked for: it runs in any mode, at once, for the suppression just written. */
  ghost predicate SpamRecorded(db: Db, db': Db, k: Key, reference: Blob, now: Time) {
    HasStatus(db', k, Suppressed) && db'.rows[k].suppressedUntil.None? && db'.rows[k].archivedAt == Some(now) &&
    db.nextJob in db'.jobs &&
    db'.jobs[db.nextJob] == Job(k, "manual_permanent_suppression", reference, now, db'.rows[k].revision, true,
                                ActionPending, now, None) &&
    (forall id :: id in db'.jobs && db'.jobs[id].key == k && Open(db'.jobs[id].status) ==> id == db.nextJob)
  }

  /** The sender's open cases carry the verdict, its time, and no reference any more; nobody else's change. */
  ghost predicate DecidedAs(reviews: map<nat, Review>, reviews': map<nat, Review>, k: Key, verdict: ReviewStatus,
                            now: Time)
  {
    reviews'.Keys == reviews.Keys && forall i :: i in reviews ==>
      reviews'[i] == if reviews[i].key == k && reviews[i].status.ReviewPending?
                     then reviews[i].(status := verdict, reviewedAt := Some(now), reference := None) else reviews[i]
  }

  class OwnerActions {
    const store: Store
    const caseDays: nat
    const control: Blob -> Option<Blob>

    constructor (store: Store, caseDays: nat, control: Blob -> Option<Blob>)
      ensures this.store == store && this.caseDays == caseDays && this.control == control
    {
      this.store, this.caseDays, this.control := store, caseDays, control;
    }

    /** What is refused before anything is done. */
    function Refused(db: Db, review: nat, now: Time): Option<Refusal> {
      if review !in db.reviews then Some(ReviewNotFound)
      else if db.reviews[review].status.ReviewPending? && db.reviews[review].expiresAt <= now then Some(ReviewNotFound)
      else if !db.reviews[review].status.ReviewPending? || db.reviews[review].reference.None? then Some(AlreadyDecided)
      else None
    }

    /** The owner's verdict on a queued review. */
    method ReviewDecide(review: nat, verdict: Verdict, c: Conditions, actions: Actions, now: Time)
      returns (refusal: Option<Refusal>)
      modifies store, actions`timers, actions`deletions
      ensures Refused(old(store.Contents()), review, now).Some? ==>
        refusal == Refused(old(store.Contents()), review, now) && store.Contents() == old(store.Contents())
      // Only a pending case that has not run out and still says whose it is can be decided.
      ensures refusal == Some(ReviewNotFound) || refusal == Some(AlreadyDecided) <==>
        !(review in old(store.reviews) && old(store.reviews)[review].status.ReviewPending? &&
          now < old(store.reviews)[review].expiresAt && old(store.reviews)[review].reference.Some?)
      ensures refusal.Some? ==>
        store.reviews == old(store.reviews) && actions.timers == old(actions.timers) &&
        actions.deletions == old(actions.deletions) &&
        ((store.rows == old(store.rows) && store.jobs == old(store.jobs)) ||
         (verdict.IsSpam? && review in old(store.reviews) &&
          Overtaken(store.Contents(), old(store.reviews)[review].key, LastCommand(c))))
      ensures refusal.None? ==>
        review in old(store.reviews) && old(store.reviews)[review].reference.Some? &&
        var k := old(store.reviews)[review].key;
        NoPendingReview(store.Contents(), k) &&
        DecidedAs(old(store.reviews), store.reviews, k, match verdict
          case IsLegitimate => ReviewStatus.Legitimate
          case IsSpam => ReviewStatus.Spam
          case IsNothing => ReviewStatus.Dismissed, now) &&
        (match verdict
         case IsLegitimate =>
           StatusOf(store.Contents(), k) == Allowed && Unclaimable(store.Contents(), k) && k !in store.evidence &&
           k !in actions.timers
         case IsSpam =>
           SpamRecorded(old(store.Contents()), store.Contents(), k, old(store.reviews)[review].reference.value, now) &&
           actions.deletions == old(actions.deletions)[old(store.nextJob) := now] && k !in actions.timers
         case IsNothing =>
           store.rows == old(store.rows) && Unclaimable(store.Contents(), k))
    {
      refusal := Refused(store.Contents(), review, now);
      if refusal.Some? {
        return;
      }
      var item := store.reviews[review];
      match verdict {
        case IsLegitimate => refusal := Legitimate(item.key, c, actions, now);
        case IsSpam => refusal := Spam(item.key, item.reference.value, c, actions, now);
        case IsNothing =>
          store.DecideSenderReviews(item.key, ReviewStatus.Dismissed, now);
          DecidedNothingOpen(old(store.Contents()), item.key, ReviewStatus.Dismissed, now);
      }
    }

    lemma DecidedNothingOpen(db: Db, k: Key, verdict: ReviewStatus, now: Time)
      requires !verdict.ReviewPending?
      ensures var db' := DecideSender(db, k, verdict, now);
        NoOpen(db', k) && NoPendingReview(db', k) && Unclaimable(db', k)
    {
      NoOpenIsUnclaimable(DecideSender(db, k, verdict, now), k);
    }

    /** Gives the dialog back before it lets the sender through. */
    method Legitimate(k: Key, c: Conditions, actions: Actions, now: Time) returns (refusal: Option<Refusal>)
      modifies store, actions`timers
      ensures refusal.Some? ==> store.Contents() == old(store.Contents()) && actions.timers == old(actions.timers)
      ensures refusal.Some? <==> GatekeeperArchived(old(StatusOf(store.Contents(), k))) && !(c.opens && c.telegram)
      ensures refusal.Some? ==> refusal.value == if c.opens then TelegramActionFailed else IdentityUnavailable
      ensures refusal.None? ==>
        StatusOf(store.Contents(), k) == Allowed && NoPendingReview(store.Contents(), k) &&
        Unclaimable(store.Contents(), k) && k !in store.evidence && k !in actions.timers &&
        DecidedAs(old(store.reviews), store.reviews, k, ReviewStatus.Legitimate, now)
    {
      var state := store.Sender(k);
      if GatekeeperArchived(state.status) {
        if !c.opens {
          return Some(IdentityUnavailable);
        }
        if !c.telegram {
          return Some(TelegramActionFailed);
        }
      }
      store.Allow(k, now);
      actions.CancelTimeout(k);
      DecidedNothingOpen(store.Contents(), k, ReviewStatus.Legitimate, now);
      store.DecideSenderReviews(k, ReviewStatus.Legitimate, now);
      refusal := None;
    }

    /** Archives the dialog unless it is, then suppresses for good and deletes at once, in any mode. */
    method Spam(k: Key, reference: Blob, c: Conditions, actions: Actions, now: Time) returns (refusal: Option<Refusal>)
      modifies store, actions`timers, actions`deletions
      ensures refusal.Some? ==>
        store.reviews == old(store.reviews) && actions.timers == old(actions.timers) &&
        actions.deletions == old(actions.deletions)
      ensures var archives := c.opens && !GatekeeperArchived(old(StatusOf(store.Contents(), k)));
        (refusal.Some? && (!archives || LastCommand(c).Nobody?) ==>
          store.rows == old(store.rows) && store.jobs == old(store.jobs)) &&
        // A command that lands while the evidence or the archive is awaited stands exactly if the verdict is refused.
        (archives && !LastCommand(c).Nobody? ==> (Overtaken(store.Contents(), k, LastCommand(c)) <==> refusal.Some?))
      ensures refusal.Some? <==> !c.opens || (!GatekeeperArchived(old(StatusOf(store.Contents(), k))) && !c.telegram)
      ensures refusal.Some? ==> refusal.value == if c.opens then TelegramActionFailed else IdentityUnavailable
      ensures refusal.None? ==>
        SpamRecorded(old(store.Contents()), store.Contents(), k, reference, now) &&
        NoPendingReview(store.Contents(), k) &&
        DecidedAs(old(store.reviews), store.reviews, k, ReviewStatus.Spam, now) &&
        actions.deletions == old(actions.deletions)[old(store.nextJob) := now] && k !in actions.timers
    {
      if !c.opens {
        return Some(IdentityUnavailable);
      }
      var ready := ArchiveForGood(k, reference, c, now);
      if !ready {
        return Some(TelegramActionFailed);
      }
      var id := RecordSpam(k, reference, now);
      actions.ScheduleDialogDeletion(id, now);
      actions.CancelTimeout(k);
      refusal := None;
    }

    /** Captures the evidence and archives the dialog, unless the dialog is archived already. */
    method ArchiveForGood(k: Key, reference: Blob, c: Conditions, now: Time) returns (ready: bool)
      modifies store
      ensures ready <==> GatekeeperArchived(old(StatusOf(store.Contents(), k))) || c.telegram
      ensures store.reviews == old(store.reviews) && store.nextJob == old(store.nextJob)
      ensures GatekeeperArchived(old(StatusOf(store.Contents(), k))) || LastCommand(c).Nobody? ==>
        store.rows == old(store.rows) && store.jobs == old(store.jobs)
      ensures !GatekeeperArchived(old(StatusOf(store.Contents(), k))) && !LastCommand(c).Nobody? ==>
        Overtaken(store.Contents(), k, LastCommand(c))
    {
      var state := store.Sender(k);
      StruckTwice(store.Contents(), k, c.duringCapture, c.duringArchive);
      if !GatekeeperArchived(state.status) {
        Interfere(store, k, c.duringCapture);
      }
      if !state.status.Suppressed? && c.envelope.Some? {
        store.SaveEnforcementReview(k, Evidence(Some(reference), c.envelope.value, "manual_spam", now, now,
                                                now + caseDays * DAY));
      }
      ready := true;
      if !GatekeeperArchived(state.status) {
        StruckAs(store.Contents(), k, c.duringArchive);
        Interfere(store, k, c.duringArchive);
        if !c.telegram {
          store.DeleteEnforcementReview(k);
          ready := false;
        }
      }
    }

    method RecordSpam(k: Key, reference: Blob, now: Time) returns (id: nat)
      modifies store
      ensures id == old(store.nextJob)
      ensures SpamRecorded(old(store.Contents()), store.Contents(), k, reference, now)
      ensures NoPendingReview(store.Contents(), k)
      ensures DecidedAs(old(store.reviews), store.reviews, k, ReviewStatus.Spam, now)
      ensures store.rows[k].suppressionReason == Some("manual_permanent_suppression")
      ensures store.rows[k].restrictionReference ==
              Coalesce(control(reference), old(Tables.Sender(store.Contents(), k)).restrictionReference)
    {
      DecidedNothingOpen(store.Contents(), k, ReviewStatus.Spam, now);
      store.DecideSenderReviews(k, ReviewStatus.Spam, now);
      var suppressed := store.Suppress(k, "manual_permanent_suppression", None, Some(reference), control(reference),
                                       now);
      store.ActivateEnforcementReview(k, "manual_permanent_suppression", now + caseDays * DAY, None, now);
      id := store.ScheduleAction(k, "manual_permanent_suppression", reference, now, suppressed.revision, true, now);
      var _ := store.ArchiveRestriction(k, now);
    }

    /** Lifts a restriction from its case. */
    method AllowCase(k: Key, c: Conditions, actions: Actions, now: Time) returns (refusal: Option<Refusal>)
      modifies store, actions`timers
      ensures refusal.Some? ==> store.Contents() == old(store.Contents()) && actions.timers == old(actions.timers)
      ensures refusal.None? <==>
        var row := old(Tables.Sender(store.Contents(), k));
        Restricted(row.status) && row.restrictionReference.Some? && c.opens && c.telegram
      ensures refusal.None? ==>
        StatusOf(store.Contents(), k) == Allowed && Unclaimable(store.Contents(), k) && k !in store.evidence &&
        k !in actions.timers
    {
      var item := store.Sender(k);
      if !Restricted(item.status) {
        return Some(NotActive);
      }
      if item.restrictionReference.None? || !c.opens {
        return Some(IdentityUnavailable);
      }
      if !c.telegram {
        return Some(TelegramActionFailed);
      }
      store.Allow(k, now);
      NoOpenIsUnclaimable(store.Contents(), k);
      actions.CancelTimeout(k);
      refusal := None;
    }

    /** Lifts a challenge or restriction because the owner wrote to the sender; the challenge's message goes too. */
    method ReleaseAfterOwnerContact(k: Key, c: Conditions, actions: Actions, now: Time) returns (released: bool)
      modifies store, actions`timers, actions`shown
      ensures released <==> GatekeeperArchived(old(StatusOf(store.Contents(), k))) && c.telegram
      ensures !released ==>
        store.Contents() == old(store.Contents()) && actions.timers == old(actions.timers) &&
        actions.shown == old(actions.shown)
      ensures released ==>
        StatusOf(store.Contents(), k) == Allowed && Unclaimable(store.Contents(), k) && k !in store.evidence &&
        k !in actions.timers
      ensures released && old(Tables.Sender(store.Contents(), k)).messageId.Some? ==>
        old(Tables.Sender(store.Contents(), k)).messageId.value !in actions.shown
    {
      var state := store.Sender(k);
      if !GatekeeperArchived(state.status) || !c.telegram {
        return false;
      }
      store.Allow(k, now);
      NoOpenIsUnclaimable(store.Contents(), k);
      actions.CancelTimeout(k);
      if state.messageId.Some? {
        actions.DeleteMessage(state.messageId.value);
      }
      released := true;
    }

    /** Releases a restriction that has no identity left, without touching the dialog. */
    method ReleaseLegacy(k: Key, actions: Actions, now: Time) returns (released: bool)
      modifies store, actions`timers
      ensures released <==>
        Restricted(old(StatusOf(store.Contents(), k))) &&
        old(Tables.Sender(store.Contents(), k)).restrictionReference.None?
      ensures !released ==> store.Contents() == old(store.Contents()) && actions.timers == old(actions.timers)
      ensures released ==>
        StatusOf(store.Contents(), k) == Allowed && Unclaimable(store.Contents(), k) && k !in store.evidence &&
        k !in store.snapshots && k !in actions.timers
    {
      var state := store.Sender(k);
      if !Restricted(state.status) || state.restrictionReference.Some? {
        return false;
      }
      store.Allow(k, now);
      NoOpenIsUnclaimable(store.Contents(), k);
      store.ClearDialogSnapshot(k);
      actions.CancelTimeout(k);
      released := true;
    }

    /** One deletion, with the sender's lock held: the conversation is deleted only behind a successful claim,
        and the job is finished once, whatever Telegram does. */
    method DialogDeletionWorker(id: nat, opens: bool, deletes: bool, now: Time) returns (deleted: bool)
      modifies store
      ensures deleted <==> Claim(old(store.Contents()), id, now).Some? && opens && deletes
      ensures Claim(old(store.Contents()), id, now).None? ==> store.Contents() == old(store.Contents())
      ensures Claim(old(store.Contents()), id, now).Some? ==>
        var k := old(store.jobs)[id].key;
        id in store.jobs && store.jobs[id].finishedAt == Some(now) &&
        store.jobs - {id} == old(store.jobs) - {id} && (forall t :: Claim(store.Contents(), id, t).None?) &&
        StatusOf(store.Contents(), k) == old(StatusOf(store.Contents(), k)) &&
        (if deleted then
           store.jobs[id].status.Completed? && store.jobs[id].reference == [] && k !in store.snapshots &&
           store.reviews == old(store.reviews) &&
           (k in store.rows && store.rows[k].status.Suppressed? ==> store.rows[k].actionReference.None?)
         else
           store.jobs[id].status.Failed? && store.jobs[id].reference == old(store.jobs)[id].reference &&
           HasPendingReview(store.reviews, k) && store.rows == old(store.rows))
    {
      if id !in store.jobs || !store.jobs[id].status.ActionPending? {
        return false;
      }
      var claimed := store.ClaimAction(id, now);
      if claimed.None? {
        return false;
      }
      var job := claimed.value;
      deleted := opens && deletes;
      if deleted {
        store.ClearDialogSnapshot(job.key);
        var _ := store.FinishAction(id, Completed, now);
        var _ := store.ClearActionReference(job.key, job.expectedRevision);
      } else {
        var _ := store.FinishAction(id, Failed, now);
        FailureIsReviewed(store.Contents(), job, now, store.retentionDays);
        store.EnqueueActionFailure(job, now);
      }
    }

    lemma FailureIsReviewed(db: Db, job: Job, now: Time, retentionDays: nat)
      ensures HasPendingReview(EnqueueFailure(db, job, now, retentionDays).reviews, job.key)
    {
      var db' := EnqueueFailure(db, job, now, retentionDays);
      if !HasPendingReview(db.reviews, job.key) {
        assert db'.reviews[db.nextReview].key == job.key;
      }
    }
  }
}
