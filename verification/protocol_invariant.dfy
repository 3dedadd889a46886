/** What every reachable state of the protocol satisfies, and that every step keeps it. */
module ProtocolInvariant {
  import opened Base
  import opened Tables
  import opened StoreSpec
  import opened Protocol
  import StoreLemmas

  // ---------------------------------------------------------------- the invariant

  /** Which columns a sender row may carry in which status. */
  ghost predicate RowOk(row: Row, test: bool) {
    (row.challengeId.Some? <==> InChallenge(row.status)) &&
    (row.answerDigest.Some? <==> InChallenge(row.status)) &&
    (row.expiresAt.Some? <==> InChallenge(row.status)) &&
    (row.profile.Some? <==> InChallenge(row.status)) &&
    (row.messageId.Some? <==> row.status.ChallengeArchiving? || row.status.Challenged?) &&
    (row.prompt.Some? <==> ChallengeStarting(row.status)) &&
    (!row.status.Challenged? ==> row.attempts == 0 && !row.guidanceSent) &&
    (row.restrictionReference.Some? ==> Restricted(row.status)) &&
    (!test ==>
      (row.suppressionReason.Some? ==> row.status.Suppressed?) &&
      (row.suppressedUntil.Some? ==> row.status.Suppressed?) &&
      (row.archivedAt.Some? ==> row.status.Suppressed? && row.suppressedUntil.None?))
  }

  ghost predicate RowsOk(cfg: Config, db: Db) {
    forall k :: k in db.rows ==> RowOk(db.rows[k], IsTest(cfg, k))
  }

  ghost predicate JobOk(job: Job) {
    (job.status.ActionPending? <==> job.finishedAt.None?) &&
    (job.status.Completed? ==> job.reference == [])
  }

  /** A pending job never outlives its sender's row, and an ordinary sender's pending job
      is bound to the restriction that stands now. */
  ghost predicate Bound(db: Db, job: Job, test: bool) {
    job.key in db.rows && db.rows[job.key].revision >= job.expectedRevision &&
    (!test ==> Restricted(db.rows[job.key].status) && db.rows[job.key].revision == job.expectedRevision)
  }

  ghost predicate OnePending(db: Db) {
    forall i, j ::
      (i in db.jobs && j in db.jobs && db.jobs[i].key == db.jobs[j].key &&
       db.jobs[i].status.ActionPending? && db.jobs[j].status.ActionPending?) ==> i == j
  }

  ghost predicate JobsOk(cfg: Config, db: Db) {
    (forall i :: i in db.jobs ==> i < db.nextJob && JobOk(db.jobs[i])) &&
    (forall i :: i in db.jobs && db.jobs[i].status.ActionPending? ==> Bound(db, db.jobs[i], IsTest(cfg,
      db.jobs[i].key))) &&
    OnePending(db)
  }

  ghost predicate ReviewOk(review: Review) {
    (review.status.ReviewPending? <==> review.reviewedAt.None?) &&
    (review.status.ReviewPending? <==> review.reference.Some?)
  }

  ghost predicate ReviewsOk(db: Db) {
    (forall i :: i in db.reviews ==> i < db.nextReview && ReviewOk(db.reviews[i])) &&
    (forall i, j ::
      (i in db.reviews && j in db.reviews && db.reviews[i].key == db.reviews[j].key &&
       db.reviews[i].status.ReviewPending? && db.reviews[j].status.ReviewPending?) ==> i == j)
  }

  /** What the lock holder's progress guarantees about the database, whoever else runs. */
  ghost predicate SectionOk(cfg: Config, db: Db, k: Key, sec: Section) {
    match sec
    case Fresh => true
    case Maintenance => true
    case Viewed(v) =>
      if DashboardOnly(v.status)
      then k in db.rows && db.rows[k].status == v.status && db.rows[k].revision == v.revision &&
           db.rows[k].expiresAt == v.expiresAt && db.rows[k].profile == v.profile
      else !DashboardOnly(StatusOf(db, k))
    case Begun => Starting(db, k)
    case Exhausted => HasStatus(db, k, Challenged)
    case TimedOut => HasStatus(db, k, Suppressed) && (!IsTest(cfg, k) ==> NoPending(db, k))
    case Ruled => NoOpen(db, k)
    case Terminal(r) =>
      k in db.rows && Restricted(db.rows[k].status) && db.rows[k].revision == r &&
      (!IsTest(cfg, k) ==> NoPending(db, k))
    case Claimed(id, job) =>
      job.key == k && k in db.rows && Restricted(db.rows[k].status) && db.rows[k].revision == job.expectedRevision &&
      id < db.nextJob && (id in db.jobs ==> db.jobs[id].key == k)
  }

  ghost predicate SectionsOk(cfg: Config, s: System) {
    forall k :: k in s.sections ==> SectionOk(cfg, s.db, k, s.sections[k])
  }

  ghost predicate DbOk(cfg: Config, db: Db) {
    RowsOk(cfg, db) && JobsOk(cfg, db) && ReviewsOk(db)
  }

  /** Attempts count the wrong answers since activation; the limit is reached exactly while the last
      wrong answer is being handled, or after that handling was cut short. */
  ghost predicate AttemptsOk(cfg: Config, s: System, k: Key) {
    HasStatus(s.db, k, Challenged) ==>
      k in s.wrong && s.db.rows[k].attempts == s.wrong[k] &&
      (s.db.rows[k].attempts >= Limit(cfg, s.db.rows[k].profile) <==>
        k in s.interrupted || (k in s.sections && s.sections[k].Exhausted?))
  }

  ghost predicate Inv(cfg: Config, s: System) {
    DbOk(cfg, s.db) && SectionsOk(cfg, s) && (forall k :: AttemptsOk(cfg, s, k))
  }

  // ---------------------------------------------------------------- frames

  /** Nothing about the sender's row or jobs differs, except that open jobs may have ended. */
  ghost predicate Calm(db: Db, db': Db, k: Key) {
    (k in db'.rows <==> k in db.rows) &&
    (k in db.rows ==> SameCase(db.rows[k], db'.rows[k])) &&
    (forall i :: i in db'.jobs && db'.jobs[i].key == k && Open(db'.jobs[i].status) ==>
      i in db.jobs && db.jobs[i].key == k && db.jobs[i].status == db'.jobs[i].status) &&
    IdsKept(db, db')
  }

  /** Job ids are never reused. */
  ghost predicate IdsKept(db: Db, db': Db) {
    db.nextJob <= db'.nextJob &&
    forall i :: i in db'.jobs && i < db.nextJob ==> i in db.jobs && db'.jobs[i].key == db.jobs[i].key
  }

  /** Equal in the columns a lock holder relies on. */
  ghost predicate SameCase(row: Row, row': Row) {
    row'.status == row.status && row'.revision == row.revision && row'.expiresAt == row.expiresAt &&
    row'.profile == row.profile && row'.attempts == row.attempts && row'.challengeId == row.challengeId &&
    row'.answerDigest == row.answerDigest && row'.messageId == row.messageId
  }

  lemma CalmKeepsSection(cfg: Config, db: Db, db': Db, k: Key, sec: Section)
    requires Calm(db, db', k) && SectionOk(cfg, db, k, sec)
    ensures SectionOk(cfg, db', k, sec)
  {}

  /** The tables stay consistent and no other sender is disturbed. */
  ghost predicate Quiet(cfg: Config, db: Db, db': Db, k: Key) {
    DbOk(cfg, db') && forall k' :: k' != k ==> Calm(db, db', k')
  }

  // ---------------------------------------------------------------- writing one row

  /** Replacing one sender's row is harmless to the queues when it keeps the restriction, or there is
      no pending job to disappoint. */
  lemma RowWrite(cfg: Config, db: Db, k: Key, row: Row, evidence: map<Key, Evidence>)
    requires DbOk(cfg, db) && RowOk(row, IsTest(cfg, k))
    requires row.revision >= Tables.Sender(db, k).revision
    requires IsTest(cfg, k) || NoPending(db, k) ||
             (k in db.rows && row.revision == db.rows[k].revision && row.status == db.rows[k].status)
    ensures Quiet(cfg, db, db.(rows := db.rows[k := row], evidence := evidence), k)
  {}

  lemma CancelOpenJobsOk(cfg: Config, db: Db, k: Key, now: Time)
    requires JobsOk(cfg, db)
    ensures JobsOk(cfg, ResolveActions(db, k, now)) && NoOpen(ResolveActions(db, k, now), k)
    ensures forall k' :: Calm(db, ResolveActions(db, k, now), k')
  {}

  lemma CalmTrans(db: Db, mid: Db, db': Db, k: Key)
    requires Calm(db, mid, k) && Calm(mid, db', k)
    ensures Calm(db, db', k)
  {}

  lemma QuietAfterCalm(cfg: Config, db: Db, mid: Db, db': Db, k: Key)
    requires (forall k' :: Calm(db, mid, k')) && Quiet(cfg, mid, db', k)
    ensures Quiet(cfg, db, db', k)
  {
    forall k' | k' != k ensures Calm(db, db', k') { CalmTrans(db, mid, db', k'); }
  }

  /** The same, when the sender's open jobs are cancelled as well. */
  lemma RowWriteCancelling(cfg: Config, db: Db, k: Key, row: Row, evidence: map<Key, Evidence>, now: Time)
    requires DbOk(cfg, db) && RowOk(row, IsTest(cfg, k))
    requires row.revision >= Tables.Sender(db, k).revision
    ensures Quiet(cfg, db, db.(rows := db.rows[k := row], jobs := CancelOpenJobs(db.jobs, k, now),
      evidence := evidence), k)
  {
    var mid := ResolveActions(db, k, now);
    CancelOpenJobsOk(cfg, db, k, now);
    RowWrite(cfg, mid, k, row, evidence);
    QuietAfterCalm(cfg, db, mid, mid.(rows := mid.rows[k := row], evidence := evidence), k);
  }

  lemma NotRestrictedMeansNoPending(cfg: Config, db: Db, k: Key)
    requires JobsOk(cfg, db) && !IsTest(cfg, k) && !Restricted(StatusOf(db, k))
    ensures NoPending(db, k)
  {}

  // ---------------------------------------------------------------- the store calls, one by one

  lemma AllowKept(cfg: Config, db: Db, k: Key, now: Time)
    requires DbOk(cfg, db)
    ensures Quiet(cfg, db, Allow(db, k, now), k)
  {
    RowWriteCancelling(cfg, db, k, SetState(db, k, Allowed, None, now).rows[k], db.evidence - {k}, now);
  }

  lemma RevokeKept(cfg: Config, db: Db, k: Key, now: Time)
    requires DbOk(cfg, db)
    ensures Quiet(cfg, db, Revoke(db, k, now), k)
  {
    RowWriteCancelling(cfg, db, k, SetState(db, k, Unknown, None, now).rows[k], db.evidence, now);
  }

  lemma ReleaseRowsOk(cfg: Config, db: Db, keys: set<Key>, now: Time)
    requires RowsOk(cfg, db) && forall k :: k in keys ==> Releases(db, k, now)
    ensures RowsOk(cfg, ReleaseKeys(db, keys, now))
  {}

  lemma ReleaseJobsOk(cfg: Config, db: Db, keys: set<Key>, now: Time)
    requires JobsOk(cfg, db)
    ensures JobsOk(cfg, ReleaseKeys(db, keys, now))
  {
    var db' := ReleaseKeys(db, keys, now);
    assert forall i :: i in db'.jobs && db'.jobs[i].status.ActionPending? ==>
      db'.jobs[i] == db.jobs[i] && db.jobs[i].key !in keys;
  }

  lemma ReleaseCalm(db: Db, keys: set<Key>, k: Key, now: Time)
    requires k !in keys
    ensures Calm(db, ReleaseKeys(db, keys, now), k)
  {}

  /** Releasing expired suppressions, one or many. */
  lemma ReleaseKeysKept(cfg: Config, db: Db, keys: set<Key>, now: Time)
    requires DbOk(cfg, db) && forall k :: k in keys ==> Releases(db, k, now)
    ensures DbOk(cfg, ReleaseKeys(db, keys, now))
    ensures forall k :: k !in keys ==> Calm(db, ReleaseKeys(db, keys, now), k)
  {
    ReleaseRowsOk(cfg, db, keys, now);
    ReleaseJobsOk(cfg, db, keys, now);
    forall k | k !in keys ensures Calm(db, ReleaseKeys(db, keys, now), k) { ReleaseCalm(db, keys, k, now); }
  }

  lemma ReleaseExpiredKept(cfg: Config, db: Db, k: Key, now: Time)
    requires DbOk(cfg, db)
    ensures Quiet(cfg, db, ReleaseExpired(db, k, now), k)
  {
    if Releases(db, k, now) {
      StoreLemmas.ReleaseNobody(db, now);
      StoreLemmas.ReleaseOneMore(db, {}, k, now);
      assert {} + {k} == {k};
      ReleaseKeysKept(cfg, db, {k}, now);
    }
  }

  lemma ResetTestKept(cfg: Config, db: Db, k: Key, expected: Time, now: Time)
    requires DbOk(cfg, db) && IsTest(cfg, k)
    ensures Quiet(cfg, db, ResetTestSender(db, k, expected, now), k)
  {
    if ResetsTest(db, k, expected) {
      RowWrite(cfg, db, k, NO_ROW.(revision := db.rows[k].revision + 1, updatedAt := now), db.evidence - {k});
    }
  }

  lemma QuarantineKept(cfg: Config, db: Db, k: Key, control: Option<Blob>, now: Time)
    requires DbOk(cfg, db) && (IsTest(cfg, k) || NoPending(db, k))
    ensures Quiet(cfg, db, Quarantine(db, k, control, now), k)
  {
    RowWrite(cfg, db, k, SetState(db, k, Quarantined, control, now).rows[k], db.evidence);
  }

  lemma SuppressKept(cfg: Config, db: Db, k: Key, reason: string, until: Option<Time>, reference: Option<Blob>,
                     control: Option<Blob>, now: Time)
    requires DbOk(cfg, db) && (IsTest(cfg, k) || NoPending(db, k))
    ensures Quiet(cfg, db, Suppress(db, k, reason, until, reference, control, now), k)
  {
    RowWrite(cfg, db, k, Suppress(db, k, reason, until, reference, control, now).rows[k], db.evidence);
  }

  lemma ProvisionalKept(cfg: Config, db: Db, k: Key, now: Time)
    requires DbOk(cfg, db) && (IsTest(cfg, k) || NoPending(db, k))
    ensures Quiet(cfg, db, MarkProvisional(db, k, now), k)
  {
    RowWrite(cfg, db, k, SetState(db, k, Provisional, None, now).rows[k], db.evidence - {k});
  }

  lemma ExpireKept(cfg: Config, db: Db, k: Key, e: Time, suppression: int, control: Option<Blob>, now: Time)
    requires DbOk(cfg, db)
    ensures Quiet(cfg, db, ExpireChallenge(db, k, e, suppression, control, now), k)
  {
    if Expires(db, k, e) {
      if !IsTest(cfg, k) { NotRestrictedMeansNoPending(cfg, db, k); }
      RowWrite(cfg, db, k, ExpireChallenge(db, k, e, suppression, control, now).rows[k], db.evidence);
    }
  }

  lemma BeginKept(cfg: Config, db: Db, k: Key, id: string, digest: string, expiresAt: Time, prompt: string,
                  reference: Option<Blob>, profile: Profile, now: Time)
    requires DbOk(cfg, db) && (IsTest(cfg, k) || !DashboardOnly(StatusOf(db, k)))
    ensures Quiet(cfg, db, BeginIssue(db, k, id, digest, expiresAt, prompt, reference, profile, now), k)
  {
    if !IsTest(cfg, k) { NotRestrictedMeansNoPending(cfg, db, k); }
    RowWrite(cfg, db, k, BeginIssue(db, k, id, digest, expiresAt, prompt, reference, profile, now).rows[k],
      db.evidence);
  }

  lemma RefreshKept(cfg: Config, db: Db, k: Key, expiresAt: Time, now: Time)
    requires DbOk(cfg, db)
    ensures Quiet(cfg, db, RefreshExpiry(db, k, expiresAt, now), k)
  {
    if HasStatus(db, k, ChallengeIssuing) {
      RowWrite(cfg, db, k, RefreshExpiry(db, k, expiresAt, now).rows[k], db.evidence);
    }
  }

  lemma BindKept(cfg: Config, db: Db, k: Key, messageId: int, now: Time)
    requires DbOk(cfg, db)
    ensures Quiet(cfg, db, BindMessage(db, k, messageId, now), k)
  {
    if HasStatus(db, k, ChallengeIssuing) {
      if !IsTest(cfg, k) { NotRestrictedMeansNoPending(cfg, db, k); }
      RowWrite(cfg, db, k, BindMessage(db, k, messageId, now).rows[k], db.evidence);
    }
  }

  lemma ActivateKept(cfg: Config, db: Db, k: Key, now: Time)
    requires DbOk(cfg, db)
    ensures Quiet(cfg, db, Activate(db, k, now), k)
  {
    if HasStatus(db, k, ChallengeArchiving) {
      if !IsTest(cfg, k) { NotRestrictedMeansNoPending(cfg, db, k); }
      RowWrite(cfg, db, k, Activate(db, k, now).rows[k], db.evidence);
    }
  }

  lemma ResetKept(cfg: Config, db: Db, k: Key, now: Time)
    requires DbOk(cfg, db)
    ensures Quiet(cfg, db, ResetIncomplete(db, k, now), k)
  {
    if Starting(db, k) {
      if !IsTest(cfg, k) { NotRestrictedMeansNoPending(cfg, db, k); }
      RowWrite(cfg, db, k, ResetIncomplete(db, k, now).rows[k], db.evidence - {k});
    }
  }

  lemma GuidanceKept(cfg: Config, db: Db, k: Key)
    requires DbOk(cfg, db)
    ensures Quiet(cfg, db, MarkGuidance(db, k), k)
  {
    if GuidanceDue(db, k) { RowWrite(cfg, db, k, MarkGuidance(db, k).rows[k], db.evidence); }
  }

  lemma IncrementKept(cfg: Config, db: Db, k: Key, now: Time)
    requires DbOk(cfg, db) && HasStatus(db, k, Challenged)
    ensures Quiet(cfg, db, IncrementAttempts(db, k, now), k)
  {
    RowWrite(cfg, db, k, IncrementAttempts(db, k, now).rows[k], db.evidence);
  }

  lemma ClearReferenceKept(cfg: Config, db: Db, k: Key, revision: nat)
    requires DbOk(cfg, db)
    ensures Quiet(cfg, db, ClearActionReference(db, k, revision), k)
  {
    if ClearsReference(db, k, revision) {
      RowWrite(cfg, db, k, ClearActionReference(db, k, revision).rows[k], db.evidence);
    }
  }

  lemma SaveControlKept(cfg: Config, db: Db, k: Key, control: Blob)
    requires DbOk(cfg, db)
    ensures Quiet(cfg, db, SaveControl(db, k, control), k)
  {
    if SavesControl(db, k) { RowWrite(cfg, db, k, SaveControl(db, k, control).rows[k], db.evidence); }
  }

  lemma ArchiveKept(cfg: Config, db: Db, k: Key, now: Time)
    requires DbOk(cfg, db)
    ensures Quiet(cfg, db, ArchiveRestriction(db, k, now), k)
  {
    if Archives(db, k) { RowWrite(cfg, db, k, ArchiveRestriction(db, k, now).rows[k], db.evidence); }
  }

  lemma UnarchiveKept(cfg: Config, db: Db, k: Key)
    requires DbOk(cfg, db)
    ensures Quiet(cfg, db, UnarchiveRestriction(db, k), k)
  {
    if Unarchives(db, k) { RowWrite(cfg, db, k, UnarchiveRestriction(db, k).rows[k], db.evidence); }
  }

  /** A new job is bound to the restriction that stands, and replaces any pending one. */
  lemma ScheduleJobsOk(cfg: Config, db: Db, k: Key, reason: string, blob: Blob, executeAt: Time, revision: nat,
                       free: bool, now: Time)
    requires JobsOk(cfg, db)
    requires k in db.rows && Restricted(db.rows[k].status) && db.rows[k].revision == revision
    ensures JobsOk(cfg, Schedule(db, k, reason, blob, executeAt, revision, free, now))
  {
    var db' := Schedule(db, k, reason, blob, executeAt, revision, free, now);
    assert forall i :: i in db'.jobs && db'.jobs[i].status.ActionPending? && i != db.nextJob ==>
      i in db.jobs && db'.jobs[i] == db.jobs[i] && db.jobs[i].key != k;
  }

  lemma ScheduleCalm(db: Db, k: Key, reason: string, blob: Blob, executeAt: Time, revision: nat,
                     free: bool, now: Time, k': Key)
    requires k' != k
    ensures Calm(db, Schedule(db, k, reason, blob, executeAt, revision, free, now), k')
  {}

  lemma ScheduleKept(cfg: Config, db: Db, k: Key, reason: string, blob: Blob, executeAt: Time, revision: nat,
                     free: bool, now: Time)
    requires DbOk(cfg, db)
    requires k in db.rows && Restricted(db.rows[k].status) && db.rows[k].revision == revision
    ensures Quiet(cfg, db, Schedule(db, k, reason, blob, executeAt, revision, free, now), k)
  {
    var db' := Schedule(db, k, reason, blob, executeAt, revision, free, now);
    ScheduleJobsOk(cfg, db, k, reason, blob, executeAt, revision, free, now);
    forall k' | k' != k ensures Calm(db, db', k') {
      ScheduleCalm(db, k, reason, blob, executeAt, revision, free, now, k');
    }
  }

  lemma FinishJobsOk(cfg: Config, db: Db, id: nat, status: ActionStatus, now: Time)
    requires JobsOk(cfg, db) && !status.ActionPending?
    ensures JobsOk(cfg, Finish(db, id, status, now))
    ensures Finish(db, id, status, now).rows == db.rows
  {}

  lemma FinishCalm(db: Db, k: Key, id: nat, status: ActionStatus, now: Time, k': Key)
    requires !status.ActionPending? && k' != k && (id in db.jobs ==> db.jobs[id].key == k)
    ensures Calm(db, Finish(db, id, status, now), k')
  {}

  lemma FinishKept(cfg: Config, db: Db, k: Key, id: nat, status: ActionStatus, now: Time)
    requires DbOk(cfg, db) && !status.ActionPending? && (id in db.jobs ==> db.jobs[id].key == k)
    ensures Quiet(cfg, db, Finish(db, id, status, now), k)
  {
    FinishJobsOk(cfg, db, id, status, now);
    forall k' | k' != k ensures Calm(db, Finish(db, id, status, now), k') { FinishCalm(db, k, id, status, now, k'); }
  }

  lemma AddUnlessPendingKept(cfg: Config, db: Db, k: Key, reference: Blob, classification: string, now: Time, days: nat)
    requires DbOk(cfg, db)
    ensures var db' := AddUnlessPending(db, k, reference, classification, now, days);
            DbOk(cfg, db') && forall k' :: Calm(db, db', k')
  {}

  lemma SameWorkCalm(db: Db, db': Db)
    requires db'.rows == db.rows && db'.jobs == db.jobs && db'.nextJob == db.nextJob
    ensures forall k :: Calm(db, db', k)
  {}

  lemma EnqueueReviewsOk(db: Db, k: Key, reference: Blob, classification: string, expiresAt: Time, now: Time)
    requires ReviewsOk(db)
    ensures ReviewsOk(Enqueue(db, k, reference, classification, expiresAt, now))
  {
    if HasPendingReview(db.reviews, k) {
      MergeReviewsOk(db, k, reference, classification, expiresAt, now);
    } else {
      AddReviewOk(db, k, Some(reference), classification, now, expiresAt);
    }
  }

  lemma MergeReviewsOk(db: Db, k: Key, reference: Blob, classification: string, expiresAt: Time, now: Time)
    requires ReviewsOk(db)
    ensures ReviewsOk(db.(reviews := MergeReviews(db.reviews, k, reference, classification, expiresAt, now)))
  {}

  lemma AddReviewOk(db: Db, k: Key, reference: Option<Blob>, classification: string, now: Time, expiresAt: Time)
    requires ReviewsOk(db) && !HasPendingReview(db.reviews, k) && reference.Some?
    ensures ReviewsOk(AddReview(db, k, reference, classification, now, expiresAt))
  {}

  lemma EnqueueKept(cfg: Config, db: Db, k: Key, reference: Blob, classification: string, expiresAt: Time, now: Time)
    requires DbOk(cfg, db)
    ensures var db' := Enqueue(db, k, reference, classification, expiresAt, now);
            DbOk(cfg, db') && forall k' :: Calm(db, db', k')
  {
    EnqueueReviewsOk(db, k, reference, classification, expiresAt, now);
    SameWorkCalm(db, Enqueue(db, k, reference, classification, expiresAt, now));
  }

  lemma DecideReviewsOk(db: Db, k: Key, verdict: ReviewStatus, now: Time)
    requires ReviewsOk(db) && !verdict.ReviewPending?
    ensures ReviewsOk(db.(reviews := DecideReviews(db.reviews, k, verdict, now)))
  {}

  lemma DecideKept(cfg: Config, db: Db, k: Key, verdict: ReviewStatus, now: Time)
    requires DbOk(cfg, db) && !verdict.ReviewPending?
    ensures var db' := DecideSender(db, k, verdict, now);
            DbOk(cfg, db') && NoOpen(db', k) && forall k' :: Calm(db, db', k')
  {
    var mid := db.(reviews := DecideReviews(db.reviews, k, verdict, now));
    DecideReviewsOk(db, k, verdict, now);
    SameWorkCalm(db, mid);
    CancelOpenJobsOk(cfg, mid, k, now);
    forall k' ensures Calm(db, ResolveActions(mid, k, now), k') {
      CalmTrans(db, mid, ResolveActions(mid, k, now), k');
    }
  }

  lemma EraseKept(cfg: Config, db: Db, keys: set<Key>)
    requires DbOk(cfg, db)
    ensures DbOk(cfg, EraseKeys(db, keys))
    ensures forall k :: k !in keys ==> Calm(db, EraseKeys(db, keys), k)
  {}

  lemma ForgetKept(cfg: Config, db: Db, k: Key, archivedBefore: Option<Time>)
    requires DbOk(cfg, db)
    ensures Quiet(cfg, db, Forget(db, k, archivedBefore), k)
  {
    SameWorkCalm(db, db);
    EraseKept(cfg, db, {k});
  }

  lemma DropStaleKept(cfg: Config, db: Db, now: Time, cutoff: Time)
    requires DbOk(cfg, db)
    ensures DbOk(cfg, DropStale(db, now, cutoff))
    ensures forall k :: Calm(db, DropStale(db, now, cutoff), k)
  {}

  lemma RefreshOk(cfg: Config, db: Db, days: nat, keys: set<Key>, now: Time)
    requires DbOk(cfg, db)
    ensures DbOk(cfg, Refresh(db, days, Some(keys), now))
  {
    var expired := ExpiredKeys(db, Some(keys), now);
    ReleaseKeysKept(cfg, db, expired, now);
    DropStaleKept(cfg, ReleaseKeys(db, expired, now), now, now - days * DAY);
  }

  lemma RefreshCalm(cfg: Config, db: Db, days: nat, keys: set<Key>, now: Time, k: Key)
    requires DbOk(cfg, db) && k !in keys
    ensures Calm(db, Refresh(db, days, Some(keys), now), k)
  {
    var expired := ExpiredKeys(db, Some(keys), now);
    var released := ReleaseKeys(db, expired, now);
    ReleaseKeysKept(cfg, db, expired, now);
    DropStaleKept(cfg, released, now, now - days * DAY);
    CalmTrans(db, released, DropStale(released, now, now - days * DAY), k);
  }

  /** A maintenance pass keeps the tables consistent and disturbs only the listed senders. */
  lemma PruneKept(cfg: Config, db: Db, days: nat, archivedDays: Option<nat>, keys: set<Key>, now: Time)
    requires DbOk(cfg, db)
    ensures DbOk(cfg, Prune(db, days, archivedDays, Some(keys), now))
    ensures forall k :: k !in keys ==> Calm(db, Prune(db, days, archivedDays, Some(keys), now), k)
  {
    var kept := Refresh(db, days, Some(keys), now);
    RefreshOk(cfg, db, days, keys, now);
    forall k | k !in keys ensures Calm(db, kept, k) { RefreshCalm(cfg, db, days, keys, now, k); }
    var forgotten := Forgets(kept, archivedDays, Some(keys), now);
    EraseKept(cfg, kept, forgotten);
    forall k | k !in keys ensures Calm(db, EraseKeys(kept, forgotten), k) {
      CalmTrans(db, kept, EraseKeys(kept, forgotten), k);
    }
  }

  lemma {:induction false} ReviewCancelledKept(cfg: Config, db: Db, pending: seq<Job>, now: Time, days: nat)
    requires DbOk(cfg, db)
    ensures DbOk(cfg, ReviewCancelled(db, pending, now, days))
    ensures forall k :: Calm(db, ReviewCancelled(db, pending, now, days), k)
    decreases |pending|
  {
    if pending == [] {
      forall k ensures Calm(db, db, k) {}
    } else {
      var rest, job := pending[..|pending| - 1], pending[|pending| - 1];
      ReviewCancelledKept(cfg, db, rest, now, days);
      var mid := ReviewCancelled(db, rest, now, days);
      AddUnlessPendingKept(cfg, mid, job.key, job.reference, "cancelled_" + job.reason, now, days);
      forall k ensures Calm(db, ReviewCancelled(db, pending, now, days), k) {
        CalmTrans(db, mid, ReviewCancelled(db, pending, now, days), k);
      }
    }
  }

  lemma CancelModeBoundKept(cfg: Config, db: Db, mode: Mode, now: Time)
    requires DbOk(cfg, db)
    ensures DbOk(cfg, CancelModeBound(db.(mode := mode), now))
    ensures forall k :: Calm(db, CancelModeBound(db.(mode := mode), now), k)
  {}

  lemma SetModeKept(cfg: Config, db: Db, mode: Mode, now: Time, days: nat)
    requires DbOk(cfg, db)
    ensures DbOk(cfg, SetMode(db, mode, now, days))
    ensures forall k :: Calm(db, SetMode(db, mode, now, days), k)
  {
    if mode.Monitor? {
      var mid := CancelModeBound(db.(mode := mode), now);
      var pending := ModeBoundJobs(db.jobs, db.nextJob);
      CancelModeBoundKept(cfg, db, mode, now);
      ReviewCancelledKept(cfg, mid, pending, now, days);
      forall k ensures Calm(db, SetMode(db, mode, now, days), k) {
        CalmTrans(db, mid, ReviewCancelled(mid, pending, now, days), k);
      }
    }
  }
}
