/** The state store: one mutable object whose methods are the SQL transactions. */
module StateStore {
  import opened Base
  import opened Tables
  import opened StoreSpec
  import opened StoreLemmas
  import Outbound
  import Campaign

  class Store {
    const retentionDays: nat

    var mode: Mode
    var rows: map<Key, Row>
    var jobs: map<nat, Job>
    var nextJob: nat
    var reviews: map<nat, Review>
    var nextReview: nat
    var evidence: map<Key, Evidence>
    var snapshots: map<Key, Snapshot>
    var events: Events

    constructor (retentionDays: nat)
      requires 1 <= retentionDays <= 7
      ensures Contents() == EMPTY && this.retentionDays == retentionDays
    {
      this.retentionDays := retentionDays;
      mode := Monitor;
      rows, snapshots, evidence := map[], map[], map[];
      jobs, nextJob := map[], 1;
      reviews, nextReview := map[], 1;
      events := NO_EVENTS;
    }

    /** The tables as one value. */
    function Contents(): Db
      reads this
    {
      Db(mode, rows, jobs, nextJob, reviews, nextReview, evidence, snapshots, events)
    }

    /** Whatever other tasks and processes wrote meanwhile. */
    method Load(db: Db)
      modifies this
      ensures Contents() == db
    {
      mode, rows, jobs, nextJob := db.mode, db.rows, db.jobs, db.nextJob;
      reviews, nextReview := db.reviews, db.nextReview;
      evidence, snapshots, events := db.evidence, db.snapshots, db.events;
    }

    // -------------------------------------------------------------- base.py

    method Sender(k: Key) returns (row: Row)
      ensures row == Tables.Sender(Contents(), k)
    {
      row := if k in rows then rows[k] else NO_ROW;
    }

    method SetState(k: Key, status: SenderStatus, control: Option<Blob>, now: Time)
      modifies this
      ensures Contents() == StoreSpec.SetState(old(Contents()), k, status, control, now)
      ensures rows == old(rows)[k := NO_ROW.(status := status, restrictionReference := control,
        revision := old(Tables.Sender(Contents(), k)).revision + 1, updatedAt := now)]
    {
      var revision := 1;
      if k in rows {
        revision := rows[k].revision + 1;
      }
      rows := rows[k := Row(status, None, None, None, None, None, None, None, control, false, 0,
                            None, None, revision, None, now)];
    }

    method ResolveSenderActions(k: Key, now: Time)
      modifies this
      ensures Contents() == StoreSpec.ResolveActions(old(Contents()), k, now)
      ensures NoOpen(Contents(), k)
      ensures jobs.Keys == old(jobs).Keys
      ensures forall id :: id in old(jobs) ==>
        jobs[id] == if old(jobs)[id].key == k && Open(old(jobs)[id].status)
                    then old(jobs)[id].(status := Cancelled, finishedAt := Some(now)) else old(jobs)[id]
    {
      jobs := CancelOpenJobs(jobs, k, now);
    }

    method DeleteEnforcementReview(k: Key)
      modifies this
      ensures Contents() == StoreSpec.DeleteEvidence(old(Contents()), k)
    {
      evidence := evidence - {k};
    }

    method ReleaseExpiredSuppression(k: Key, now: Time) returns (released: bool)
      modifies this
      ensures released == Releases(old(Contents()), k, now)
      ensures Contents() == StoreSpec.ReleaseExpired(old(Contents()), k, now)
      ensures !Releases(Contents(), k, now)
      ensures released <==>
        k in old(rows) && old(rows)[k].status.Suppressed? && old(rows)[k].suppressedUntil.Some? &&
        old(rows)[k].suppressedUntil.value <= now
      ensures released ==>
        rows == old(rows)[k := old(rows)[k].(status := Unknown, suppressionReason := None, suppressedUntil := None,
          actionReference := None, restrictionReference := None, archivedAt := None,
          revision := old(rows)[k].revision + 1, updatedAt := now)] &&
        NoOpen(Contents(), k) && (forall i :: i in reviews ==> reviews[i].key != k) && k !in evidence &&
        k !in snapshots
      ensures released ==> forall id :: id in old(jobs) && old(jobs)[id].key == k && Open(old(jobs)[id].status) ==>
        id in jobs && jobs[id].status.Cancelled? && jobs[id].reference == []
    {
      released := k in rows && rows[k].status.Suppressed? &&
                  rows[k].suppressedUntil.Some? && rows[k].suppressedUntil.value <= now;
      if !released {
        return;
      }
      rows := rows[k := rows[k].(status := Unknown, suppressionReason := None, suppressedUntil := None,
                                 actionReference := None, restrictionReference := None,
                                 revision := rows[k].revision + 1, archivedAt := None, updatedAt := now)];
      jobs := ReleaseJobs(jobs, {k}, now);
      evidence := evidence - {k};
      reviews := ReviewsWithout(reviews, {k});
      snapshots := snapshots - {k};
    }

    /** The rows of the SELECT over pending, mode-bound jobs. */
    method SelectModeBound() returns (pending: seq<Job>)
      ensures pending == ModeBoundJobs(jobs, nextJob)
    {
      pending := [];
      for id := 0 to nextJob
        invariant pending == ModeBoundJobs(jobs, id)
      {
        if id in jobs && jobs[id].status.ActionPending? && !jobs[id].modeIndependent {
          pending := pending + [jobs[id]];
        }
      }
    }

    /** A review for work that ended without the owner, unless the sender has one pending. */
    method AddReviewUnlessPending(k: Key, reference: Blob, classification: string, now: Time)
      modifies this
      ensures Contents() == AddUnlessPending(old(Contents()), k, reference, classification, now, retentionDays)
    {
      if !HasPendingReview(reviews, k) {
        reviews := reviews[nextReview := Review(k, Some(reference), classification,
          ReviewPending, 1, now, now, now + retentionDays * DAY, None)];
        nextReview := nextReview + 1;
      }
    }

    method SetMode(mode: Mode, now: Time)
      modifies this
      ensures Contents() == StoreSpec.SetMode(old(Contents()), mode, now, retentionDays)
      ensures this.mode == mode && rows == old(rows) && jobs.Keys == old(jobs).Keys
      // Monitor mode cancels what is pending and bound to the mode, and nothing else; protect mode cancels nothing.
      ensures forall id :: id in old(jobs) ==>
        jobs[id] == if mode.Monitor? && old(jobs)[id].status.ActionPending? && !old(jobs)[id].modeIndependent
                    then old(jobs)[id].(status := Cancelled, finishedAt := Some(now)) else old(jobs)[id]
      ensures mode.Protect? ==> reviews == old(reviews)
      // Whoever loses a pending job gets the owner's attention instead, and nobody else does.
      ensures NextReviewFree(old(Contents())) ==> OldOrFor(old(Contents()), reviews, old(jobs), now, retentionDays)
      ensures mode.Monitor? && NextJobFree(old(Contents())) && NextReviewFree(old(Contents())) ==>
        forall id :: id in old(jobs) && ModeBound(old(jobs)[id]) ==> HasPendingReview(reviews, old(jobs)[id].key)
    {
      ghost var before := Contents();
      SetModeEffect(before, mode, now, retentionDays);
      if mode.Monitor? && NextJobFree(before) && NextReviewFree(before) {
        SetModeReviews(before, now, retentionDays);
      }
      this.mode := mode;
      if mode.Monitor? {
        var pending := SelectModeBound();
        jobs := CancelModeBoundJobs(jobs, now);
        ghost var cancelled := Contents();
        for n := 0 to |pending|
          invariant Contents() == ReviewCancelled(cancelled, pending[..n], now, retentionDays)
        {
          ReviewCancelledNext(cancelled, pending, n, now, retentionDays);
          AddReviewUnlessPending(pending[n].key, pending[n].reference, "cancelled_" + pending[n].reason, now);
        }
        assert pending[..|pending|] == pending;
      }
    }

    /** Deletes the sender from every linked table in turn. */
    method EraseSenderRows(k: Key)
      modifies this
      ensures Contents() == EraseKeys(old(Contents()), {k})
    {
      ghost var before := Contents();
      TablesDistinct();
      DeleteFromEach(SENDER_LINKED_TABLES, k);
      AllTablesListed();
      EveryTableErased(before, TablesIn(SENDER_LINKED_TABLES), {k});
    }

    method DeleteFromEach(tables: seq<Table>, k: Key)
      requires forall i, j :: 0 <= i < j < |tables| ==> tables[i] != tables[j]
      modifies this
      ensures Contents() == DeleteFrom(old(Contents()), TablesIn(tables), {k})
    {
      ghost var before := Contents();
      ghost var done: set<Table> := {};
      DeleteFromNone(before, {k});
      for n := 0 to |tables|
        invariant forall t :: t in done <==> t in tables[..n]
        invariant Contents() == DeleteFrom(before, done, {k})
      {
        DeleteFromOneMore(before, done, tables[n], {k});
        DeleteSender(tables[n], k);
        done := done + {tables[n]};
      }
      assert done == TablesIn(tables);
    }

    method DeleteSender(t: Table, k: Key)
      modifies this
      ensures Contents() == DeleteFrom(old(Contents()), {t}, {k})
    {
      match t {
        case SenderState => rows := rows - {k};
        case PendingActions => jobs := JobsWithout(jobs, {k});
        case ReviewQueue => reviews := ReviewsWithout(reviews, {k});
        case EnforcementReviews => evidence := evidence - {k};
        case DialogSnapshots => snapshots := snapshots - {k};
        case ProcessedMessages => events := events.(processed := MessagesWithout(events.processed, {k}));
        case Audit => events := events.(audits := Without(events.audits, {k}));
        case LinkEvents => events := events.(links := Without(events.links, {k}));
        case OutboundEvents => events := events.(outbound := OutboundWithout(events.outbound, {k}));
        case AutomatedMessages => events := events.(automated := MessagesWithout(events.automated, {k}));
        case DecisionEvents => events := events.(decisions := Without(events.decisions, {k}));
        case CampaignEvents => events := events.(campaign := CampaignWithout(events.campaign, {k}));
      }
    }

    // -------------------------------------------------------------- senders.py

    method Allow(k: Key, now: Time)
      modifies this
      ensures Contents() == StoreSpec.Allow(old(Contents()), k, now)
      ensures rows == old(rows)[k := NO_ROW.(status := Allowed,
        revision := old(Tables.Sender(Contents(), k)).revision + 1, updatedAt := now)]
      ensures NoOpen(Contents(), k) && evidence == old(evidence) - {k}
    {
      SetState(k, Allowed, None, now);
      ResolveSenderActions(k, now);
      DeleteEnforcementReview(k);
    }

    method Revoke(k: Key, now: Time)
      modifies this
      ensures Contents() == StoreSpec.Revoke(old(Contents()), k, now)
      ensures rows == old(rows)[k := NO_ROW.(status := Unknown,
        revision := old(Tables.Sender(Contents(), k)).revision + 1, updatedAt := now)]
      ensures NoOpen(Contents(), k)
    {
      SetState(k, Unknown, None, now);
      ResolveSenderActions(k, now);
    }

    method ResetTestSender(k: Key, expectedUpdatedAt: Time, now: Time) returns (reset: bool)
      modifies this
      ensures reset == ResetsTest(old(Contents()), k, expectedUpdatedAt)
      ensures reset <==>
        k in old(rows) && old(rows)[k].updatedAt == expectedUpdatedAt &&
        old(rows)[k].status in {Provisional, Quarantined, Suppressed}
      ensures reset ==>
        rows == old(rows)[k := NO_ROW.(revision := old(rows)[k].revision + 1, updatedAt := now)] && k !in evidence
      ensures Contents() == StoreSpec.ResetTestSender(old(Contents()), k, expectedUpdatedAt, now)
    {
      reset := k in rows && rows[k].updatedAt == expectedUpdatedAt &&
               (rows[k].status.Provisional? || rows[k].status.Quarantined? || rows[k].status.Suppressed?);
      if reset {
        rows := rows[k := Row(Unknown, None, None, None, None, None, None, None, None, false, 0,
                              None, None, rows[k].revision + 1, None, now)];
        DeleteEnforcementReview(k);
      }
    }

    method Quarantine(k: Key, control: Option<Blob>, now: Time)
      modifies this
      ensures Contents() == StoreSpec.Quarantine(old(Contents()), k, control, now)
      ensures rows == old(rows)[k := NO_ROW.(status := Quarantined, restrictionReference := control,
        revision := old(Tables.Sender(Contents(), k)).revision + 1, updatedAt := now)]
    {
      SetState(k, Quarantined, control, now);
    }

    method Suppress(k: Key, reason: string, until: Option<Time>, reference: Option<Blob>,
                    control: Option<Blob>, now: Time)
      returns (row: Row)
      modifies this
      ensures Contents() == StoreSpec.Suppress(old(Contents()), k, reason, until, reference, control, now)
      ensures row == Tables.Sender(Contents(), k)
      ensures k in rows && row == NO_ROW.(status := Suppressed, suppressionReason := Some(reason),
        suppressedUntil := until,
        actionReference := if reference.Some? then reference else old(Tables.Sender(Contents(), k)).actionReference,
        restrictionReference :=
          if control.Some? then control else old(Tables.Sender(Contents(), k)).restrictionReference,
        revision := old(Tables.Sender(Contents(), k)).revision + 1, updatedAt := now)
    {
      if k !in rows {
        rows := rows[k := Row(Suppressed, None, None, None, None, None, None, reference, control, false, 0,
                              Some(reason), until, 1, None, now)];
      } else {
        var was := rows[k];
        rows := rows[k := Row(Suppressed, None, None, None, None, None, None,
                              Coalesce(reference, was.actionReference),
                              Coalesce(control, was.restrictionReference), false, 0,
                              Some(reason), until, was.revision + 1, None, now)];
      }
      row := Sender(k);
    }

    // -------------------------------------------------------------- challenges.py

    method BeginChallengeIssue(k: Key, id: string, digest: string, expiresAt: Time, prompt: string,
                               reference: Option<Blob>, profile: Profile, now: Time)
      modifies this
      ensures Contents() == StoreSpec.BeginIssue(old(Contents()), k, id, digest, expiresAt, prompt, reference,
        profile, now)
      ensures k in rows && InChallenge(rows[k].status) && rows[k].challengeId == Some(id) &&
        rows[k].answerDigest == Some(digest) && rows[k].profile == Some(profile) && rows[k].messageId.None? &&
        rows[k].prompt == Some(prompt) && rows[k].expiresAt == Some(expiresAt) && rows[k].attempts == 0 &&
        !rows[k].guidanceSent && rows[k].actionReference == reference && rows[k].restrictionReference.None? &&
        rows[k].revision == old(Tables.Sender(Contents(), k)).revision
    {
      var was := Sender(k);
      rows := rows[k := was.(status := ChallengeIssuing, challengeId := Some(id), answerDigest := Some(digest),
                             expiresAt := Some(expiresAt), messageId := None, prompt := Some(prompt),
                             profile := Some(profile), actionReference := reference,
                             restrictionReference := None, guidanceSent := false, attempts := 0,
                             updatedAt := now)];
    }

    method RefreshChallengeExpiry(k: Key, expiresAt: Time, now: Time) returns (ok: bool)
      modifies this
      ensures ok == HasStatus(old(Contents()), k, ChallengeIssuing)
      ensures Contents() == StoreSpec.RefreshExpiry(old(Contents()), k, expiresAt, now)
    {
      ok := k in rows && rows[k].status.ChallengeIssuing?;
      if ok {
        rows := rows[k := rows[k].(expiresAt := Some(expiresAt), updatedAt := now)];
      }
    }

    method BindChallengeMessage(k: Key, messageId: int, now: Time) returns (ok: bool)
      modifies this
      ensures ok == HasStatus(old(Contents()), k, ChallengeIssuing)
      ensures Contents() == StoreSpec.BindMessage(old(Contents()), k, messageId, now)
    {
      ok := k in rows && rows[k].status.ChallengeIssuing?;
      if ok {
        rows := rows[k := rows[k].(status := ChallengeArchiving, messageId := Some(messageId), updatedAt := now)];
      }
    }

    method ActivateChallenge(k: Key, now: Time) returns (ok: bool)
      modifies this
      ensures ok == HasStatus(old(Contents()), k, ChallengeArchiving)
      ensures Contents() == StoreSpec.Activate(old(Contents()), k, now)
    {
      ok := k in rows && rows[k].status.ChallengeArchiving?;
      if ok {
        rows := rows[k := rows[k].(status := Challenged, prompt := None,
                                   revision := rows[k].revision + 1, updatedAt := now)];
      }
    }

    method ResetIncompleteChallenge(k: Key, now: Time) returns (ok: bool)
      modifies this
      ensures ok == Starting(old(Contents()), k)
      ensures Contents() == StoreSpec.ResetIncomplete(old(Contents()), k, now)
    {
      ok := k in rows && (rows[k].status.ChallengeIssuing? || rows[k].status.ChallengeArchiving?);
      if ok {
        rows := rows[k := rows[k].(status := Unknown, challengeId := None, answerDigest := None,
                                   expiresAt := None, messageId := None, prompt := None, profile := None,
                                   actionReference := None, restrictionReference := None,
                                   guidanceSent := false, attempts := 0, updatedAt := now)];
        DeleteEnforcementReview(k);
      }
    }

    method MarkProvisional(k: Key, now: Time)
      modifies this
      ensures Contents() == StoreSpec.MarkProvisional(old(Contents()), k, now)
      ensures rows == old(rows)[k := NO_ROW.(status := Provisional,
        revision := old(Tables.Sender(Contents(), k)).revision + 1, updatedAt := now)]
      ensures evidence == old(evidence) - {k}
    {
      SetState(k, Provisional, None, now);
      DeleteEnforcementReview(k);
    }

    method MarkChallengeGuidanceSent(k: Key) returns (ok: bool)
      modifies this
      ensures ok == GuidanceDue(old(Contents()), k)
      ensures Contents() == StoreSpec.MarkGuidance(old(Contents()), k)
      ensures !GuidanceDue(Contents(), k)
    {
      ok := k in rows && rows[k].status.Challenged? && !rows[k].guidanceSent;
      if ok {
        rows := rows[k := rows[k].(guidanceSent := true)];
      }
    }

    method ExpireChallenge(k: Key, expiresAt: Time, suppression: int, control: Option<Blob>, now: Time)
      returns (ok: bool)
      modifies this
      ensures ok == Expires(old(Contents()), k, expiresAt)
      ensures Contents() == StoreSpec.ExpireChallenge(old(Contents()), k, expiresAt, suppression, control, now)
    {
      ok := k in rows && rows[k].status.Challenged? && rows[k].expiresAt == Some(expiresAt);
      if ok {
        rows := rows[k := rows[k].(status := Suppressed, challengeId := None, answerDigest := None,
                                   expiresAt := None, messageId := None, prompt := None, profile := None,
                                   guidanceSent := false, attempts := 0,
                                   suppressionReason := Some("challenge_timeout"),
                                   suppressedUntil := Some(now + suppression),
                                   restrictionReference := control,
                                   revision := rows[k].revision + 1, updatedAt := now)];
      }
    }

    method IncrementAttempts(k: Key, now: Time) returns (attempts: nat)
      modifies this
      ensures Contents() == StoreSpec.IncrementAttempts(old(Contents()), k, now)
      ensures attempts == if k in rows then rows[k].attempts else 0
      ensures k in old(rows) ==> attempts == old(rows)[k].attempts + 1
    {
      attempts := 0;
      if k in rows {
        rows := rows[k := rows[k].(attempts := rows[k].attempts + 1, updatedAt := now)];
        attempts := rows[k].attempts;
      }
    }

    // -------------------------------------------------------------- actions.py

    method ScheduleAction(k: Key, reason: string, reference: Blob, executeAt: Time,
                          expectedRevision: nat, modeIndependent: bool, now: Time)
      returns (id: nat)
      modifies this
      ensures id == old(nextJob)
      ensures Contents() == StoreSpec.Schedule(old(Contents()), k, reason, reference, executeAt,
                                               expectedRevision, modeIndependent, now)
      // It is the sender's only pending job, and nobody else's changed.
      ensures forall i :: i in jobs && jobs[i].key == k && jobs[i].status.ActionPending? ==> i == id
      ensures forall i :: i in old(jobs) && old(jobs)[i].key != k && i != id ==> i in jobs && jobs[i] == old(jobs)[i]
    {
      jobs := CancelPendingJobs(jobs, k, now);
      id := nextJob;
      jobs := jobs[id := Job(k, reason, reference, executeAt, expectedRevision, modeIndependent,
                             ActionPending, now, None)];
      nextJob := nextJob + 1;
    }

    method ClaimAction(id: nat, now: Time) returns (claimed: Option<Job>)
      ensures claimed == StoreSpec.Claim(Contents(), id, now)
    {
      if id !in jobs || !jobs[id].status.ActionPending? {
        return None;
      }
      var job := jobs[id];
      if mode.Monitor? && !job.modeIndependent {
        return None;
      }
      var state := Sender(job.key);
      if !(state.status.Quarantined? || state.status.Suppressed?) || state.revision != job.expectedRevision {
        return None;
      }
      if state.status.Suppressed? && state.suppressedUntil.Some? && state.suppressedUntil.value <= now {
        return None;
      }
      claimed := Some(job);
    }

    method FinishAction(id: nat, status: ActionStatus, now: Time) returns (ok: bool)
      requires !status.ActionPending?
      modifies this
      ensures ok == Finishes(old(Contents()), id)
      ensures Contents() == StoreSpec.Finish(old(Contents()), id, status, now)
      ensures !Finishes(Contents(), id)
      ensures ok && status.Completed? ==> jobs[id].reference == []
    {
      ok := id in jobs && jobs[id].status.ActionPending?;
      if ok {
        if status.Completed? {
          jobs := jobs[id := jobs[id].(status := status, finishedAt := Some(now), reference := [])];
        } else {
          jobs := jobs[id := jobs[id].(status := status, finishedAt := Some(now))];
        }
      }
    }

    method ClearActionReference(k: Key, expectedRevision: nat) returns (ok: bool)
      modifies this
      ensures ok == ClearsReference(old(Contents()), k, expectedRevision)
      ensures Contents() == StoreSpec.ClearActionReference(old(Contents()), k, expectedRevision)
    {
      ok := k in rows && rows[k].status.Suppressed? && rows[k].revision == expectedRevision;
      if ok {
        rows := rows[k := rows[k].(actionReference := None)];
      }
    }

    method EnqueueActionFailure(job: Job, now: Time)
      modifies this
      ensures Contents() == StoreSpec.EnqueueFailure(old(Contents()), job, now, retentionDays)
      ensures HasPendingReview(reviews, job.key)
    {
      AddedIsPending(Contents(), job.key, job.reference, job.reason + "_action_failed", now, retentionDays);
      AddReviewUnlessPending(job.key, job.reference, job.reason + "_action_failed", now);
    }

    // -------------------------------------------------------------- reviews.py

    /** A pending case of the sender counts the message and moves its end; it takes the new content, unless it is a
        would-be quarantine and the new one is not. Every other case stays. */
    ghost predicate Updated(item: Review, item': Review, k: Key, reference: Blob, classification: string,
                            expiresAt: Time, now: Time)
    {
      if item.key != k || !item.status.ReviewPending? then item' == item
      else
        var counted := item.(messageCount := item.messageCount + 1, updatedAt := now, expiresAt := expiresAt);
        item' == if item.classification == "would_quarantine" && classification != "would_quarantine" then counted
                 else counted.(reference := Some(reference), classification := classification)
    }

    method EnqueueReview(k: Key, reference: Blob, classification: string, expiresAt: Time, now: Time)
      modifies this
      ensures Contents() == StoreSpec.Enqueue(old(Contents()), k, reference, classification, expiresAt, now)
      ensures HasPendingReview(reviews, k)
      ensures forall i :: i in old(reviews) && i != old(nextReview) ==>
        i in reviews && Updated(old(reviews)[i], reviews[i], k, reference, classification, expiresAt, now)
      ensures NoPendingReview(old(Contents()), k) ==>
        nextReview == old(nextReview) + 1 && reviews.Keys == old(reviews).Keys + {old(nextReview)} &&
        reviews[old(nextReview)] ==
          Review(k, Some(reference), classification, ReviewPending, 1, now, now, expiresAt, None)
      ensures !NoPendingReview(old(Contents()), k) ==>
        nextReview == old(nextReview) && reviews.Keys == old(reviews).Keys
    {
      EnqueuedIsPending(Contents(), k, reference, classification, expiresAt, now);
      if !HasPendingReview(reviews, k) {
        reviews := reviews[nextReview :=
          Review(k, Some(reference), classification, ReviewPending, 1, now, now, expiresAt, None)];
        nextReview := nextReview + 1;
      } else {
        reviews := MergeReviews(reviews, k, reference, classification, expiresAt, now);
      }
    }

    method DecideSenderReviews(k: Key, status: ReviewStatus, now: Time)
      requires !status.ReviewPending?
      modifies this
      ensures Contents() == StoreSpec.DecideSender(old(Contents()), k, status, now)
      ensures NoPendingReview(Contents(), k) && NoOpen(Contents(), k)
      ensures reviews.Keys == old(reviews).Keys
      ensures forall i :: i in old(reviews) ==>
        reviews[i] == if old(reviews)[i].key == k && old(reviews)[i].status.ReviewPending?
                      then old(reviews)[i].(status := status, reviewedAt := Some(now), reference := None)
                      else old(reviews)[i]
    {
      reviews := DecideReviews(reviews, k, status, now);
      ResolveSenderActions(k, now);
    }

    // -------------------------------------------------------------- restrictions.py

    method SaveDialogSnapshot(k: Key, snapshot: Snapshot)
      modifies this
      ensures Contents() == StoreSpec.SaveSnapshot(old(Contents()), k, snapshot)
      ensures k in snapshots && snapshots[k] == if k in old(snapshots) then old(snapshots)[k] else snapshot
    {
      if k !in snapshots {
        snapshots := snapshots[k := snapshot];
      }
    }

    method ClearDialogSnapshot(k: Key)
      modifies this
      ensures Contents() == StoreSpec.ClearSnapshot(old(Contents()), k)
    {
      snapshots := snapshots - {k};
    }

    method SaveEnforcementReview(k: Key, item: Evidence)
      modifies this
      ensures Contents() == StoreSpec.SaveEvidence(old(Contents()), k, item)
      ensures k in evidence && evidence[k] == if k in old(evidence) then old(evidence)[k] else item
    {
      if k !in evidence {
        evidence := evidence[k := item];
      }
    }

    method ActivateEnforcementReview(k: Key, reason: string, expiresAt: Time, reference: Option<Blob>, now: Time)
      modifies this
      ensures Contents() == StoreSpec.ActivateEvidence(old(Contents()), k, reason, expiresAt, reference, now)
      ensures evidence.Keys == old(evidence).Keys && evidence - {k} == old(evidence) - {k}
      ensures k in evidence ==>
        evidence[k] == old(evidence)[k].(reason := reason, expiresAt := expiresAt, updatedAt := now,
          reference := if old(evidence)[k].reference.Some? then old(evidence)[k].reference else reference)
    {
      if k in evidence {
        evidence := evidence[k := evidence[k].(reference := Coalesce(evidence[k].reference, reference),
                                               reason := reason, updatedAt := now, expiresAt := expiresAt)];
      }
    }

    method SaveRestrictionReference(k: Key, control: Blob) returns (ok: bool)
      modifies this
      ensures ok == SavesControl(old(Contents()), k)
      ensures Contents() == StoreSpec.SaveControl(old(Contents()), k, control)
      ensures !SavesControl(Contents(), k)
    {
      ok := k in rows && Restricted(rows[k].status) && rows[k].restrictionReference.None?;
      if ok {
        rows := rows[k := rows[k].(restrictionReference := Some(control))];
      }
    }

    method ArchiveRestriction(k: Key, now: Time) returns (ok: bool)
      modifies this
      ensures ok == Archives(old(Contents()), k)
      ensures Contents() == StoreSpec.ArchiveRestriction(old(Contents()), k, now)
      ensures ok ==> Unarchives(Contents(), k) && rows[k].archivedAt == Some(now)
    {
      ok := k in rows && rows[k].status.Suppressed? && rows[k].suppressedUntil.None?;
      if ok {
        rows := rows[k := rows[k].(archivedAt := Some(now))];
      }
    }

    method UnarchiveRestriction(k: Key) returns (ok: bool)
      modifies this
      ensures ok == Unarchives(old(Contents()), k)
      ensures Contents() == StoreSpec.UnarchiveRestriction(old(Contents()), k)
      ensures !Unarchives(Contents(), k)
    {
      ok := k in rows && rows[k].status.Suppressed? && rows[k].suppressedUntil.None? && rows[k].archivedAt.Some?;
      if ok {
        rows := rows[k := rows[k].(archivedAt := None)];
      }
    }

    method ForgetRestriction(k: Key, archivedBefore: Option<Time>) returns (ok: bool)
      modifies this
      ensures ok == Forgettable(old(Contents()), k, archivedBefore)
      ensures ok <==>
        k in old(rows) && old(rows)[k].status.Suppressed? && old(rows)[k].suppressedUntil.None? &&
        old(rows)[k].archivedAt.Some? &&
        (archivedBefore.Some? ==> old(rows)[k].archivedAt.value <= archivedBefore.value) && NoOpen(old(Contents()), k)
      ensures !ok ==> Contents() == old(Contents())
      ensures Contents() == StoreSpec.Forget(old(Contents()), k, archivedBefore)
      ensures ok ==> k !in rows && k !in evidence && k !in snapshots && NoPendingReview(Contents(), k)
    {
      ok := Forgettable(Contents(), k, archivedBefore);
      if ok {
        EraseSenderRows(k);
      }
    }

    // -------------------------------------------------------------- events.py

    /** Whether a message may be sent now; nothing is answered for a configuration the source refuses. */
    method ClaimOutboundSlot(quota: Outbound.Quota, k: Key, challenge: bool, now: Time) returns (allowed: Option<bool>)
      modifies this`events
      ensures allowed.Some? <==> Outbound.Valid(quota)
      ensures allowed.None? ==> events == old(events)
      ensures allowed.Some? ==>
        var kept := OutboundSince(old(events).outbound, now - HOUR);
        allowed.value == Outbound.Free(quota, kept, k, challenge, now) &&
        events == old(events).(outbound := kept + [Outbound.Entry(k, challenge, allowed.value, now)])
    {
      if !Outbound.Valid(quota) {
        return None;
      }
      var cutoff := now - HOUR;
      events := events.(outbound := OutboundSince(events.outbound, cutoff));
      var total := Outbound.Tally(events.outbound, Outbound.Accepted, cutoff, None);
      var free := total < quota.limit;
      if challenge {
        free := free && total < quota.limit - quota.reserve;
      } else {
        var notices := Outbound.Tally(events.outbound, Outbound.NoticesOf(k), cutoff, None);
        free := free && notices < quota.perSender;
      }
      events := events.(outbound := events.outbound + [Outbound.Entry(k, challenge, free, now)]);
      allowed := Some(free);
    }

    method ObserveCampaign(fingerprint: string, k: Key, now: Time) returns (count: nat)
      modifies this`events
      ensures events == old(events).(campaign := Campaign.Upsert(old(events).campaign, Campaign.Sight(fingerprint, k,
        now)))
      ensures count == Campaign.Count(events.campaign, fingerprint, now - CAMPAIGN_WINDOW)
      ensures (fingerprint, k) in events.campaign && events.campaign[(fingerprint, k)] == now
      ensures forall p :: p != (fingerprint, k) ==>
        (p in events.campaign <==> p in old(events).campaign && old(events).campaign[p] >= now - 604800)
    {
      var cutoff := now - CAMPAIGN_WINDOW;
      events := events.(campaign := CampaignSince(events.campaign, cutoff));
      events := events.(campaign := events.campaign[(fingerprint, k) := now]);
      count := |set p | p in events.campaign && p.0 == fingerprint && events.campaign[p] >= cutoff|;
    }

    /** Whether the message is new: a number seen before is never taken again, and taking it changes no other. */
    method ClaimMessage(k: Key, id: int, now: Time) returns (claimed: bool)
      modifies this`events
      ensures claimed <==> (k, id) !in old(events).processed
      ensures (k, id) in events.processed && events.processed - {(k, id)} == old(events).processed - {(k, id)}
      ensures Contents() == StoreSpec.ClaimMessage(old(Contents()), k, id, now)
      ensures !claimed ==> Contents() == old(Contents())
    {
      claimed := (k, id) !in events.processed;
      if claimed {
        events := events.(processed := events.processed[(k, id) := now]);
      }
    }

    method RecordAutomatedMessage(k: Key, id: int, now: Time)
      modifies this`events
      ensures Contents() == RecordAutomated(old(Contents()), k, id, now)
    {
      if (k, id) !in events.automated {
        events := events.(automated := events.automated[(k, id) := now]);
      }
    }

    method MessageIdsBetween(k: Key, first: int, last: int) returns (ids: set<int>)
      ensures forall id :: id in ids <==>
        first <= id <= last && ((k, id) in events.processed || (k, id) in events.automated)
      ensures ids == MessageIds(events, k, first, last)
    {
      ids := MessageIds(events, k, first, last);
    }

    /** How many messages with links the sender had in the last minute. */
    method RecentLinkMessages(k: Key, now: Time) returns (count: nat)
      ensures count == RecentLinks(events.links, k, now - LINK_WINDOW)
      ensures count >= 1 <==> exists i :: 0 <= i < |events.links| && LinkOf(events.links[i], k, now - LINK_WINDOW)
    {
      RecentIfAny(events.links, k, now - LINK_WINDOW);
      count := RecentLinks(events.links, k, now - LINK_WINDOW);
    }

    method RecordLinkMessage(k: Key, now: Time)
      modifies this`events
      ensures Contents() == RecordLink(old(Contents()), k, now)
    {
      events := events.(links := events.links + [LogRow(k, now)]);
    }

    // -------------------------------------------------------------- maintenance.py

    method ReleaseEach(expired: set<Key>, now: Time) returns (released: nat)
      requires forall k :: k in expired ==> Releases(Contents(), k, now)
      modifies this
      ensures Contents() == ReleaseKeys(old(Contents()), expired, now)
      ensures released == |expired|
    {
      ghost var before := Contents();
      ghost var done: set<Key> := {};
      ReleaseNobody(before, now);
      var rest := expired;
      released := 0;
      while rest != {}
        invariant done !! rest && done + rest == expired && released + |rest| == |expired|
        invariant Contents() == ReleaseKeys(before, done, now)
        decreases rest
      {
        var k :| k in rest;
        ReleaseOneMore(before, done, k, now);
        var ok := ReleaseExpiredSuppression(k, now);
        released := released + (if ok then 1 else 0);
        rest, done := rest - {k}, done + {k};
      }
      assert done == expired;
    }

    method EraseEach(keys: set<Key>) returns (forgotten: nat)
      modifies this
      ensures Contents() == EraseKeys(old(Contents()), keys)
      ensures forgotten == |keys|
    {
      ghost var before := Contents();
      ghost var done: set<Key> := {};
      EraseNobody(before);
      var rest := keys;
      forgotten := 0;
      while rest != {}
        invariant done + rest == keys && forgotten + |rest| == |keys|
        invariant Contents() == EraseKeys(before, done)
        decreases rest
      {
        var k :| k in rest;
        EraseOneMore(before, done, k);
        EraseSenderRows(k);
        forgotten := forgotten + 1;
        rest, done := rest - {k}, done + {k};
      }
      assert done == keys;
    }

    method DropStaleEvents(now: Time, cutoff: Time)
      modifies this`events
      ensures events == FreshEvents(old(events), now, cutoff)
    {
      events := events.(audits := Since(events.audits, cutoff));
      events := events.(processed := MessagesSince(events.processed, cutoff));
      events := events.(links := Since(events.links, now - HOUR));
      events := events.(outbound := OutboundSince(events.outbound, now - HOUR));
      events := events.(campaign := CampaignSince(events.campaign, now - CAMPAIGN_WINDOW));
      events := events.(automated := MessagesSince(events.automated, cutoff));
      events := events.(decisions := Since(events.decisions, cutoff));
    }

    method RefreshRows(retention: nat, permitted: Option<set<Key>>, now: Time) returns (released: nat)
      modifies this
      ensures Contents() == Refresh(old(Contents()), retention, permitted, now)
      ensures released == |ExpiredKeys(old(Contents()), permitted, now)|
    {
      var cutoff := now - retention * DAY;
      var expired := ExpiredKeys(Contents(), permitted, now);
      released := ReleaseEach(expired, now);
      DropStaleEvents(now, cutoff);
      jobs := FreshJobs(jobs, rows, cutoff);
      reviews := FreshReviews(reviews, now, cutoff);
      evidence := FreshEvidence(evidence, now);
    }

    /** One maintenance pass; the three counters are what the dashboard shows. */
    method Prune(retention: nat, archivedDays: Option<nat>, permitted: Option<set<Key>>, now: Time)
      returns (forgotten: nat, skipped: nat, released: nat)
      modifies this
      ensures Contents() == StoreSpec.Prune(old(Contents()), retention, archivedDays, permitted, now)
      ensures released == |ExpiredKeys(old(Contents()), permitted, now)|
      ensures var kept := Refresh(old(Contents()), retention, permitted, now);
              forgotten == |Forgets(kept, archivedDays, permitted, now)| && skipped == |Skips(kept, archivedDays, now)|
    {
      released := RefreshRows(retention, permitted, now);
      forgotten, skipped := ForgetPastRetention(archivedDays, permitted, now);
    }

    method ForgetPastRetention(archivedDays: Option<nat>, permitted: Option<set<Key>>, now: Time)
      returns (forgotten: nat, skipped: nat)
      modifies this
      ensures Contents() == EraseKeys(old(Contents()), Forgets(old(Contents()), archivedDays, permitted, now))
      ensures forgotten == |Forgets(old(Contents()), archivedDays, permitted, now)|
      ensures skipped == |Skips(old(Contents()), archivedDays, now)|
    {
      EraseNobody(Contents());
      forgotten, skipped := 0, 0;
      if archivedDays.Some? {
        var cutoff := now - archivedDays.value * DAY;
        skipped := |SkippedKeys(Contents(), cutoff)|;
        var chosen := ForgottenKeys(Contents(), permitted, cutoff);
        forgotten := EraseEach(chosen);
      }
    }
  }
}
