/** What each store method does to the database, as functions from the old tables to the new. */
module StoreSpec {
  import opened Base
  import opened Tables

  // ---------------------------------------------------------------- bulk SQL statements

  predicate SuppressionExpired(row: Row, now: Time) {
    row.status.Suppressed? && row.suppressedUntil.Some? && row.suppressedUntil.value <= now
  }

  function CancelledJob(job: Job, now: Time): Job {
    job.(status := Cancelled, finishedAt := Some(now))
  }

  /** The job a mode change to monitor cancels. */
  predicate ModeBound(job: Job) {
    job.status.ActionPending? && !job.modeIndependent
  }

  function CancelOpenJobs(jobs: map<nat, Job>, k: Key, now: Time): map<nat, Job> {
    map i | i in jobs ::
      if jobs[i].key == k && Open(jobs[i].status) then CancelledJob(jobs[i], now) else jobs[i]
  }

  function CancelPendingJobs(jobs: map<nat, Job>, k: Key, now: Time): map<nat, Job> {
    map i | i in jobs ::
      if jobs[i].key == k && jobs[i].status.ActionPending? then CancelledJob(jobs[i], now) else jobs[i]
  }

  function CancelModeBoundJobs(jobs: map<nat, Job>, now: Time): map<nat, Job> {
    map i | i in jobs :: if ModeBound(jobs[i]) then CancelledJob(jobs[i], now) else jobs[i]
  }

  /** Cancels open work and erases its references. */
  function ReleaseJobs(jobs: map<nat, Job>, keys: set<Key>, now: Time): map<nat, Job> {
    map i | i in jobs ::
      if jobs[i].key in keys && Open(jobs[i].status)
      then CancelledJob(jobs[i], now).(reference := []) else jobs[i]
  }

  function JobsWithout(jobs: map<nat, Job>, keys: set<Key>): map<nat, Job> {
    map i | i in jobs && jobs[i].key !in keys :: jobs[i]
  }

  function ReviewsWithout(reviews: map<nat, Review>, keys: set<Key>): map<nat, Review> {
    map i | i in reviews && reviews[i].key !in keys :: reviews[i]
  }

  function CampaignWithout(campaign: map<(string, Key), Time>, keys: set<Key>): map<(string, Key), Time> {
    map p | p in campaign && p.1 !in keys :: campaign[p]
  }

  function CampaignSince(campaign: map<(string, Key), Time>, cutoff: Time): map<(string, Key), Time> {
    map p | p in campaign && campaign[p] >= cutoff :: campaign[p]
  }

  function Decided(review: Review, status: ReviewStatus, now: Time): Review {
    review.(status := status, reviewedAt := Some(now), reference := None)
  }

  function DecideReviews(reviews: map<nat, Review>, k: Key, status: ReviewStatus, now: Time): map<nat, Review> {
    map i | i in reviews ::
      if reviews[i].key == k && reviews[i].status.ReviewPending?
      then Decided(reviews[i], status, now) else reviews[i]
  }

  /** A pending `would_quarantine` item keeps its content when something milder arrives. */
  function MergedReview(item: Review, reference: Blob, classification: string, expiresAt: Time, now: Time): Review {
    if item.classification == "would_quarantine" && classification != "would_quarantine"
    then item.(messageCount := item.messageCount + 1, updatedAt := now, expiresAt := expiresAt)
    else item.(reference := Some(reference), classification := classification,
               messageCount := item.messageCount + 1, updatedAt := now, expiresAt := expiresAt)
  }

  function MergeReviews(reviews: map<nat, Review>, k: Key, reference: Blob, classification: string,
                        expiresAt: Time, now: Time): map<nat, Review>
  {
    map i | i in reviews ::
      if reviews[i].key == k && reviews[i].status.ReviewPending?
      then MergedReview(reviews[i], reference, classification, expiresAt, now) else reviews[i]
  }

  function MessagesWithout(messages: MessageTable, keys: set<Key>): MessageTable {
    map p | p in messages && p.0 !in keys :: messages[p]
  }

  function MessagesSince(messages: MessageTable, cutoff: Time): MessageTable {
    map p | p in messages && messages[p] >= cutoff :: messages[p]
  }

  function Without(log: seq<LogRow>, keys: set<Key>): seq<LogRow> {
    if log == [] then []
    else Without(log[..|log| - 1], keys) +
         (if log[|log| - 1].sender in keys then [] else [log[|log| - 1]])
  }

  predicate SentTo(row: OutboundRow, keys: set<Key>) {
    row.sender.Some? && row.sender.value in keys
  }

  function OutboundWithout(log: seq<OutboundRow>, keys: set<Key>): seq<OutboundRow> {
    if log == [] then []
    else OutboundWithout(log[..|log| - 1], keys) +
         (if SentTo(log[|log| - 1], keys) then [] else [log[|log| - 1]])
  }

  function Since(log: seq<LogRow>, cutoff: Time): seq<LogRow> {
    if log == [] then []
    else Since(log[..|log| - 1], cutoff) +
         (if log[|log| - 1].at < cutoff then [] else [log[|log| - 1]])
  }

  function OutboundSince(log: seq<OutboundRow>, cutoff: Time): seq<OutboundRow> {
    if log == [] then []
    else OutboundSince(log[..|log| - 1], cutoff) +
         (if log[|log| - 1].at < cutoff then [] else [log[|log| - 1]])
  }

  /** Finished jobs past retention; a failed job stays while its sender is restricted. */
  predicate StaleJob(rows: map<Key, Row>, job: Job, cutoff: Time) {
    job.finishedAt.Some? && job.finishedAt.value < cutoff &&
    (job.status.Completed? || job.status.Cancelled? ||
     (job.status.Failed? && !(job.key in rows && Restricted(rows[job.key].status))))
  }

  function FreshJobs(jobs: map<nat, Job>, rows: map<Key, Row>, cutoff: Time): map<nat, Job> {
    map i | i in jobs && !StaleJob(rows, jobs[i], cutoff) :: jobs[i]
  }

  predicate StaleReview(review: Review, now: Time, cutoff: Time) {
    (review.status.ReviewPending? && review.expiresAt <= now) ||
    (!review.status.ReviewPending? && review.reviewedAt.Some? && review.reviewedAt.value < cutoff)
  }

  function FreshReviews(reviews: map<nat, Review>, now: Time, cutoff: Time): map<nat, Review> {
    map i | i in reviews && !StaleReview(reviews[i], now, cutoff) :: reviews[i]
  }

  function FreshEvidence(evidence: map<Key, Evidence>, now: Time): map<Key, Evidence> {
    map k | k in evidence && evidence[k].expiresAt > now :: evidence[k]
  }

  // ---------------------------------------------------------------- sender_state, base.py

  /** `_set_state` as every caller uses it: no challenge columns, a fresh revision. */
  function SetState(db: Db, k: Key, status: SenderStatus, control: Option<Blob>, now: Time): Db {
    db.(rows := db.rows[k := NO_ROW.(
      status := status,
      restrictionReference := control,
      revision := if k in db.rows then db.rows[k].revision + 1 else 1,
      updatedAt := now)])
  }

  function ResolveActions(db: Db, k: Key, now: Time): Db {
    db.(jobs := CancelOpenJobs(db.jobs, k, now))
  }

  function DeleteEvidence(db: Db, k: Key): Db {
    db.(evidence := db.evidence - {k})
  }

  function ReleasedRow(row: Row, now: Time): Row {
    row.(status := Unknown, suppressionReason := None, suppressedUntil := None,
         actionReference := None, restrictionReference := None, archivedAt := None,
         revision := row.revision + 1, updatedAt := now)
  }

  predicate Releases(db: Db, k: Key, now: Time) {
    k in db.rows && SuppressionExpired(db.rows[k], now)
  }

  function ReleaseExpired(db: Db, k: Key, now: Time): Db {
    if !Releases(db, k, now) then db else
    db.(rows := db.rows[k := ReleasedRow(db.rows[k], now)],
        jobs := ReleaseJobs(db.jobs, {k}, now),
        evidence := db.evidence - {k},
        reviews := ReviewsWithout(db.reviews, {k}),
        snapshots := db.snapshots - {k})
  }

  function NewReview(k: Key, reference: Option<Blob>, classification: string, now: Time, expiresAt: Time): Review {
    Review(k, reference, classification, ReviewPending, 1, now, now, expiresAt, None)
  }

  function AddReview(db: Db, k: Key, reference: Option<Blob>, classification: string, now: Time, expiresAt: Time): Db {
    db.(reviews := db.reviews[db.nextReview := NewReview(k, reference, classification, now, expiresAt)],
        nextReview := db.nextReview + 1)
  }

  function AddUnlessPending(db: Db, k: Key, reference: Blob, classification: string, now: Time,
    retentionDays: nat): Db {
    if HasPendingReview(db.reviews, k) then db
    else AddReview(db, k, Some(reference), classification, now, now + retentionDays * DAY)
  }

  /** One review per cancelled job whose sender has none pending, in the order the jobs were read. */
  function ReviewCancelled(db: Db, pending: seq<Job>, now: Time, retentionDays: nat): Db
    decreases |pending|
  {
    if pending == [] then db
    else
      var job := pending[|pending| - 1];
      AddUnlessPending(ReviewCancelled(db, pending[..|pending| - 1], now, retentionDays),
                       job.key, job.reference, "cancelled_" + job.reason, now, retentionDays)
  }

  function CancelModeBound(db: Db, now: Time): Db {
    db.(jobs := CancelModeBoundJobs(db.jobs, now))
  }

  /** The mode-bound pending jobs in id order; ids below `n` only. */
  function ModeBoundJobs(jobs: map<nat, Job>, n: nat): seq<Job> {
    if n == 0 then []
    else ModeBoundJobs(jobs, n - 1) +
         (if n - 1 in jobs && ModeBound(jobs[n - 1]) then [jobs[n - 1]] else [])
  }

  function SetMode(db: Db, mode: Mode, now: Time, retentionDays: nat): Db {
    var db' := db.(mode := mode);
    if mode.Protect? then db'
    else ReviewCancelled(CancelModeBound(db', now), ModeBoundJobs(db.jobs, db.nextJob), now, retentionDays)
  }

  // ---------------------------------------------------------------- senders.py

  function Allow(db: Db, k: Key, now: Time): Db {
    DeleteEvidence(ResolveActions(SetState(db, k, Allowed, None, now), k, now), k)
  }

  function Revoke(db: Db, k: Key, now: Time): Db {
    ResolveActions(SetState(db, k, Unknown, None, now), k, now)
  }

  predicate ResetsTest(db: Db, k: Key, expectedUpdatedAt: Time) {
    k in db.rows && db.rows[k].updatedAt == expectedUpdatedAt &&
    (db.rows[k].status.Provisional? || Restricted(db.rows[k].status))
  }

  function ResetTestSender(db: Db, k: Key, expectedUpdatedAt: Time, now: Time): Db {
    if !ResetsTest(db, k, expectedUpdatedAt) then db else
    DeleteEvidence(
      db.(rows := db.rows[k := NO_ROW.(revision := db.rows[k].revision + 1, updatedAt := now)]), k)
  }

  function Quarantine(db: Db, k: Key, control: Option<Blob>, now: Time): Db {
    SetState(db, k, Quarantined, control, now)
  }

  function Suppress(db: Db, k: Key, reason: string, until: Option<Time>, reference: Option<Blob>,
                    control: Option<Blob>, now: Time): Db
  {
    var row := Sender(db, k);
    db.(rows := db.rows[k := NO_ROW.(
      status := Suppressed,
      actionReference := Coalesce(reference, row.actionReference),
      restrictionReference := Coalesce(control, row.restrictionReference),
      suppressionReason := Some(reason),
      suppressedUntil := until,
      revision := row.revision + 1,
      updatedAt := now)])
  }

  // ---------------------------------------------------------------- challenges.py

  /** Columns the insert or update does not name keep their value. */
  function BeginIssue(db: Db, k: Key, id: string, digest: string, expiresAt: Time, prompt: string,
                      reference: Option<Blob>, profile: Profile, now: Time): Db
  {
    db.(rows := db.rows[k := Sender(db, k).(
      status := ChallengeIssuing, challengeId := Some(id), answerDigest := Some(digest),
      expiresAt := Some(expiresAt), messageId := None, prompt := Some(prompt), profile := Some(profile),
      actionReference := reference, restrictionReference := None,
      guidanceSent := false, attempts := 0, updatedAt := now)])
  }

  predicate HasStatus(db: Db, k: Key, status: SenderStatus) {
    k in db.rows && db.rows[k].status == status
  }

  function RefreshExpiry(db: Db, k: Key, expiresAt: Time, now: Time): Db {
    if !HasStatus(db, k, ChallengeIssuing) then db else
    db.(rows := db.rows[k := db.rows[k].(expiresAt := Some(expiresAt), updatedAt := now)])
  }

  function BindMessage(db: Db, k: Key, messageId: int, now: Time): Db {
    if !HasStatus(db, k, ChallengeIssuing) then db else
    db.(rows := db.rows[k := db.rows[k].(status := ChallengeArchiving, messageId := Some(messageId), updatedAt := now)])
  }

  function Activate(db: Db, k: Key, now: Time): Db {
    if !HasStatus(db, k, ChallengeArchiving) then db else
    db.(rows := db.rows[k := db.rows[k].(status := Challenged, prompt := None,
                                         revision := db.rows[k].revision + 1, updatedAt := now)])
  }

  predicate Starting(db: Db, k: Key) {
    k in db.rows && ChallengeStarting(db.rows[k].status)
  }

  function WithoutChallenge(row: Row): Row {
    row.(challengeId := None, answerDigest := None, expiresAt := None, messageId := None,
         prompt := None, profile := None, guidanceSent := false, attempts := 0)
  }

  function ResetIncomplete(db: Db, k: Key, now: Time): Db {
    if !Starting(db, k) then db else
    DeleteEvidence(
      db.(rows := db.rows[k := WithoutChallenge(db.rows[k]).(
        status := Unknown, actionReference := None, restrictionReference := None, updatedAt := now)]), k)
  }

  function MarkProvisional(db: Db, k: Key, now: Time): Db {
    DeleteEvidence(SetState(db, k, Provisional, None, now), k)
  }

  predicate GuidanceDue(db: Db, k: Key) {
    HasStatus(db, k, Challenged) && !db.rows[k].guidanceSent
  }

  function MarkGuidance(db: Db, k: Key): Db {
    if !GuidanceDue(db, k) then db else db.(rows := db.rows[k := db.rows[k].(guidanceSent := true)])
  }

  predicate Expires(db: Db, k: Key, expiresAt: Time) {
    HasStatus(db, k, Challenged) && db.rows[k].expiresAt == Some(expiresAt)
  }

  function ExpireChallenge(db: Db, k: Key, expiresAt: Time, suppression: int, control: Option<Blob>, now: Time): Db {
    if !Expires(db, k, expiresAt) then db else
    db.(rows := db.rows[k := WithoutChallenge(db.rows[k]).(
      status := Suppressed, suppressionReason := Some("challenge_timeout"),
      suppressedUntil := Some(now + suppression), restrictionReference := control,
      revision := db.rows[k].revision + 1, updatedAt := now)])
  }

  function IncrementAttempts(db: Db, k: Key, now: Time): Db {
    if k !in db.rows then db else
    db.(rows := db.rows[k := db.rows[k].(attempts := db.rows[k].attempts + 1, updatedAt := now)])
  }

  // ---------------------------------------------------------------- message numbers and links, base.py and events.py

  const LINK_WINDOW: int := 60

  /** INSERT OR IGNORE of one message number. */
  function Recorded(messages: MessageTable, k: Key, id: int, now: Time): MessageTable {
    if (k, id) in messages then messages else messages[(k, id) := now]
  }

  function ClaimMessage(db: Db, k: Key, id: int, now: Time): Db {
    db.(events := db.events.(processed := Recorded(db.events.processed, k, id, now)))
  }

  function RecordAutomated(db: Db, k: Key, id: int, now: Time): Db {
    db.(events := db.events.(automated := Recorded(db.events.automated, k, id, now)))
  }

  function RecordLink(db: Db, k: Key, now: Time): Db {
    db.(events := db.events.(links := db.events.links + [LogRow(k, now)]))
  }

  predicate LinkOf(row: LogRow, k: Key, cutoff: Time) {
    row.sender == k && row.at >= cutoff
  }

  function RecentLinks(links: seq<LogRow>, k: Key, cutoff: Time): nat {
    if links == [] then 0
    else RecentLinks(links[..|links| - 1], k, cutoff) + (if LinkOf(links[|links| - 1], k, cutoff) then 1 else 0)
  }

  /** The sender's message numbers, received or sent by the service, within the bounds. */
  function MessageIds(events: Events, k: Key, first: int, last: int): set<int> {
    set p | p in events.processed.Keys + events.automated.Keys && p.0 == k && first <= p.1 <= last :: p.1
  }

  // ---------------------------------------------------------------- actions.py

  function Schedule(db: Db, k: Key, reason: string, reference: Blob, executeAt: Time,
                    expectedRevision: nat, modeIndependent: bool, now: Time): Db
  {
    db.(jobs := CancelPendingJobs(db.jobs, k, now)[db.nextJob :=
          Job(k, reason, reference, executeAt, expectedRevision, modeIndependent, ActionPending, now, None)],
        nextJob := db.nextJob + 1)
  }

  /** `claim_action`: the pending job, if its restriction still stands; nothing is written. */
  function Claim(db: Db, id: nat, now: Time): Option<Job> {
    if id !in db.jobs || !db.jobs[id].status.ActionPending? then None
    else
      var job := db.jobs[id];
      var row := Sender(db, job.key);
      if !db.mode.Protect? && !job.modeIndependent then None
      else if !Restricted(row.status) || row.revision != job.expectedRevision then None
      else if SuppressionExpired(row, now) then None
      else Some(job)
  }

  predicate Finishes(db: Db, id: nat) {
    id in db.jobs && db.jobs[id].status.ActionPending?
  }

  function Finish(db: Db, id: nat, status: ActionStatus, now: Time): Db
    requires !status.ActionPending?
  {
    if !Finishes(db, id) then db else
    db.(jobs := db.jobs[id := db.jobs[id].(
      status := status, finishedAt := Some(now),
      reference := if status.Completed? then [] else db.jobs[id].reference)])
  }

  predicate ClearsReference(db: Db, k: Key, expectedRevision: nat) {
    HasStatus(db, k, Suppressed) && db.rows[k].revision == expectedRevision
  }

  function ClearActionReference(db: Db, k: Key, expectedRevision: nat): Db {
    if !ClearsReference(db, k, expectedRevision) then db else
    db.(rows := db.rows[k := db.rows[k].(actionReference := None)])
  }

  function EnqueueFailure(db: Db, job: Job, now: Time, retentionDays: nat): Db {
    AddUnlessPending(db, job.key, job.reference, job.reason + "_action_failed", now, retentionDays)
  }

  // ---------------------------------------------------------------- reviews.py

  function Enqueue(db: Db, k: Key, reference: Blob, classification: string, expiresAt: Time, now: Time): Db {
    if !HasPendingReview(db.reviews, k)
    then AddReview(db, k, Some(reference), classification, now, expiresAt)
    else db.(reviews := MergeReviews(db.reviews, k, reference, classification, expiresAt, now))
  }

  function DecideSender(db: Db, k: Key, status: ReviewStatus, now: Time): Db
    requires !status.ReviewPending?
  {
    ResolveActions(db.(reviews := DecideReviews(db.reviews, k, status, now)), k, now)
  }

  // ---------------------------------------------------------------- restrictions.py

  function SaveSnapshot(db: Db, k: Key, snapshot: Snapshot): Db {
    if k in db.snapshots then db else db.(snapshots := db.snapshots[k := snapshot])
  }

  function ClearSnapshot(db: Db, k: Key): Db {
    db.(snapshots := db.snapshots - {k})
  }

  function SaveEvidence(db: Db, k: Key, evidence: Evidence): Db {
    if k in db.evidence then db else db.(evidence := db.evidence[k := evidence])
  }

  function ActivateEvidence(db: Db, k: Key, reason: string, expiresAt: Time, reference: Option<Blob>, now: Time): Db {
    if k !in db.evidence then db else
    db.(evidence := db.evidence[k := db.evidence[k].(
      reference := Coalesce(db.evidence[k].reference, reference),
      reason := reason, updatedAt := now, expiresAt := expiresAt)])
  }

  predicate SavesControl(db: Db, k: Key) {
    k in db.rows && Restricted(db.rows[k].status) && db.rows[k].restrictionReference.None?
  }

  function SaveControl(db: Db, k: Key, control: Blob): Db {
    if !SavesControl(db, k) then db else
    db.(rows := db.rows[k := db.rows[k].(restrictionReference := Some(control))])
  }

  predicate Archives(db: Db, k: Key) {
    HasStatus(db, k, Suppressed) && db.rows[k].suppressedUntil.None?
  }

  function ArchiveRestriction(db: Db, k: Key, now: Time): Db {
    if !Archives(db, k) then db else db.(rows := db.rows[k := db.rows[k].(archivedAt := Some(now))])
  }

  predicate Unarchives(db: Db, k: Key) {
    k in db.rows && ArchivedPermanent(db.rows[k])
  }

  function UnarchiveRestriction(db: Db, k: Key): Db {
    if !Unarchives(db, k) then db else db.(rows := db.rows[k := db.rows[k].(archivedAt := None)])
  }

  const SENDER_LINKED_TABLES: seq<Table> := [
    ProcessedMessages, Audit, LinkEvents, OutboundEvents, AutomatedMessages, DialogSnapshots,
    ReviewQueue, PendingActions, DecisionEvents, CampaignEvents, EnforcementReviews, SenderState]

  function EventsWithout(events: Events, tables: set<Table>, keys: set<Key>): Events {
    Events(if ProcessedMessages in tables then MessagesWithout(events.processed, keys) else events.processed,
           if Audit in tables then Without(events.audits, keys) else events.audits,
           if LinkEvents in tables then Without(events.links, keys) else events.links,
           if OutboundEvents in tables then OutboundWithout(events.outbound, keys) else events.outbound,
           if AutomatedMessages in tables then MessagesWithout(events.automated, keys) else events.automated,
           if DecisionEvents in tables then Without(events.decisions, keys) else events.decisions,
           if CampaignEvents in tables then CampaignWithout(events.campaign, keys) else events.campaign)
  }

  /** DELETE FROM t WHERE sender_key IN keys, for every t of a set of tables. */
  function DeleteFrom(db: Db, tables: set<Table>, keys: set<Key>): Db {
    db.(rows := if SenderState in tables then db.rows - keys else db.rows,
        jobs := if PendingActions in tables then JobsWithout(db.jobs, keys) else db.jobs,
        reviews := if ReviewQueue in tables then ReviewsWithout(db.reviews, keys) else db.reviews,
        evidence := if EnforcementReviews in tables then db.evidence - keys else db.evidence,
        snapshots := if DialogSnapshots in tables then db.snapshots - keys else db.snapshots,
        events := EventsWithout(db.events, tables, keys))
  }

  function NoEventsOf(events: Events, keys: set<Key>): Events {
    Events(MessagesWithout(events.processed, keys), Without(events.audits, keys), Without(events.links, keys),
           OutboundWithout(events.outbound, keys), MessagesWithout(events.automated, keys),
           Without(events.decisions, keys), CampaignWithout(events.campaign, keys))
  }

  /** Every linked row of the given senders gone. */
  function EraseKeys(db: Db, keys: set<Key>): Db {
    db.(rows := db.rows - keys, jobs := JobsWithout(db.jobs, keys), reviews := ReviewsWithout(db.reviews, keys),
        evidence := db.evidence - keys, snapshots := db.snapshots - keys, events := NoEventsOf(db.events, keys))
  }

  predicate Forgettable(db: Db, k: Key, archivedBefore: Option<Time>) {
    k in db.rows && ArchivedPermanent(db.rows[k]) &&
    (archivedBefore.Some? ==> db.rows[k].archivedAt.value <= archivedBefore.value) &&
    !HasOpenJob(db.jobs, k)
  }

  function Forget(db: Db, k: Key, archivedBefore: Option<Time>): Db {
    if Forgettable(db, k, archivedBefore) then EraseKeys(db, {k}) else db
  }

  // ---------------------------------------------------------------- maintenance.py

  predicate Permitted(permitted: Option<set<Key>>, k: Key) {
    permitted.None? || k in permitted.value
  }

  /** Temporary suppressions that ended, among the permitted senders. */
  function ExpiredKeys(db: Db, permitted: Option<set<Key>>, now: Time): set<Key> {
    set k | k in db.rows && SuppressionExpired(db.rows[k], now) && Permitted(permitted, k)
  }

  function ReleaseRows(rows: map<Key, Row>, keys: set<Key>, now: Time): map<Key, Row> {
    map k | k in rows :: if k in keys then ReleasedRow(rows[k], now) else rows[k]
  }

  /** All of them released at once. */
  function ReleaseKeys(db: Db, keys: set<Key>, now: Time): Db {
    db.(rows := ReleaseRows(db.rows, keys, now),
        jobs := ReleaseJobs(db.jobs, keys, now),
        evidence := db.evidence - keys,
        reviews := ReviewsWithout(db.reviews, keys),
        snapshots := db.snapshots - keys)
  }

  function FreshEvents(events: Events, now: Time, cutoff: Time): Events {
    Events(MessagesSince(events.processed, cutoff), Since(events.audits, cutoff), Since(events.links, now - HOUR),
           OutboundSince(events.outbound, now - HOUR), MessagesSince(events.automated, cutoff),
           Since(events.decisions, cutoff), CampaignSince(events.campaign, now - CAMPAIGN_WINDOW))
  }

  function DropStale(db: Db, now: Time, cutoff: Time): Db {
    db.(events := FreshEvents(db.events, now, cutoff),
        jobs := FreshJobs(db.jobs, db.rows, cutoff),
        reviews := FreshReviews(db.reviews, now, cutoff),
        evidence := FreshEvidence(db.evidence, now))
  }

  predicate PastRetention(row: Row, cutoff: Time) {
    ArchivedPermanent(row) && row.archivedAt.value <= cutoff
  }

  /** Archived permanent restrictions past the cutoff with no open work, among the permitted senders. */
  function ForgottenKeys(db: Db, permitted: Option<set<Key>>, cutoff: Time): set<Key> {
    set k | k in db.rows && PastRetention(db.rows[k], cutoff) && !HasOpenJob(db.jobs, k) && Permitted(permitted, k)
  }

  /** The ones that open work keeps. */
  function SkippedKeys(db: Db, cutoff: Time): set<Key> {
    set k | k in db.rows && PastRetention(db.rows[k], cutoff) && HasOpenJob(db.jobs, k)
  }

  /** Everything a pass does before it forgets. */
  function Refresh(db: Db, retentionDays: nat, permitted: Option<set<Key>>, now: Time): Db {
    DropStale(ReleaseKeys(db, ExpiredKeys(db, permitted, now), now), now, now - retentionDays * DAY)
  }

  /** Who the pass forgets, judged on the refreshed database. */
  function Forgets(kept: Db, archivedDays: Option<nat>, permitted: Option<set<Key>>, now: Time): set<Key> {
    if archivedDays.None? then {} else ForgottenKeys(kept, permitted, now - archivedDays.value * DAY)
  }

  function Skips(kept: Db, archivedDays: Option<nat>, now: Time): set<Key> {
    if archivedDays.None? then {} else SkippedKeys(kept, now - archivedDays.value * DAY)
  }

  function Prune(db: Db, retentionDays: nat, archivedDays: Option<nat>, permitted: Option<set<Key>>, now: Time): Db {
    var kept := Refresh(db, retentionDays, permitted, now);
    EraseKeys(kept, Forgets(kept, archivedDays, permitted, now))
  }

  function ArchivedBefore(db: Db, cutoff: Time): set<Key> {
    set k | k in db.rows && PastRetention(db.rows[k], cutoff)
  }

  /** `maintenance_sender_keys`: the senders whose locks maintenance takes. */
  function MaintenanceKeys(db: Db, archivedDays: Option<nat>, now: Time): set<Key> {
    ExpiredKeys(db, None, now) +
    (if archivedDays.None? then {} else ArchivedBefore(db, now - archivedDays.value * DAY))
  }
}
