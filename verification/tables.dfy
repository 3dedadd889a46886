/** The database: one datatype per row, one field of Db per table. */
module Tables {
  import opened Base

  datatype Row = Row(
    status: SenderStatus,
    challengeId: Option<string>,
    answerDigest: Option<string>,
    expiresAt: Option<Time>,
    messageId: Option<int>,
    prompt: Option<string>,
    profile: Option<Profile>,
    actionReference: Option<Blob>,
    restrictionReference: Option<Blob>,
    guidanceSent: bool,
    attempts: nat,
    suppressionReason: Option<string>,
    suppressedUntil: Option<Time>,
    revision: nat,
    archivedAt: Option<Time>,
    updatedAt: Time)

  datatype Job = Job(
    key: Key,
    reason: string,
    reference: Blob,
    executeAt: Time,
    expectedRevision: nat,
    modeIndependent: bool,
    status: ActionStatus,
    createdAt: Time,
    finishedAt: Option<Time>)

  datatype Review = Review(
    key: Key,
    reference: Option<Blob>,
    classification: string,
    status: ReviewStatus,
    messageCount: nat,
    createdAt: Time,
    updatedAt: Time,
    expiresAt: Time,
    reviewedAt: Option<Time>)

  datatype Evidence = Evidence(
    reference: Option<Blob>,
    envelope: Blob,
    reason: string,
    createdAt: Time,
    updatedAt: Time,
    expiresAt: Time)

  // A dialog's folder and notification settings before the first archive.
  datatype Snapshot = Snapshot(folder: int, silent: bool, muteUntil: Option<Time>)

  datatype Category = Legacy | ChallengeSent | NoticeSent | ChallengeRejected | NoticeRejected

  datatype OutboundRow = OutboundRow(sender: Option<Key>, category: Category, at: Time)

  // A timestamped row of a sender-linked log whose other columns play no part here.
  datatype LogRow = LogRow(sender: Key, at: Time)

  datatype Table =
    | ProcessedMessages
    | Audit
    | LinkEvents
    | OutboundEvents
    | AutomatedMessages
    | DialogSnapshots
    | ReviewQueue
    | PendingActions
    | DecisionEvents
    | CampaignEvents
    | EnforcementReviews
    | SenderState

  // Message numbers by sender, with the time each was recorded.
  type MessageTable = map<(Key, int), Time>

  // The sender-linked event tables.
  datatype Events = Events(
    processed: MessageTable,
    audits: seq<LogRow>,
    links: seq<LogRow>,
    outbound: seq<OutboundRow>,
    automated: MessageTable,
    decisions: seq<LogRow>,
    campaign: map<(string, Key), Time>)

  datatype Db = Db(
    mode: Mode,
    rows: map<Key, Row>,
    jobs: map<nat, Job>,
    nextJob: nat,
    reviews: map<nat, Review>,
    nextReview: nat,
    evidence: map<Key, Evidence>,
    snapshots: map<Key, Snapshot>,
    events: Events)

  const NO_EVENTS: Events := Events(map[], [], [], [], map[], [], map[])

  const EMPTY: Db := Db(Monitor, map[], map[], 1, map[], 1, map[], map[], NO_EVENTS)

  const NO_ROW: Row :=
    Row(Unknown, None, None, None, None, None, None, None, None, false, 0, None, None, 0, None, 0)

  /** The stored row, or the unknown sender's default when there is none. */
  function Sender(db: Db, k: Key): Row {
    if k in db.rows then db.rows[k] else NO_ROW
  }

  function StatusOf(db: Db, k: Key): SenderStatus {
    Sender(db, k).status
  }

  ghost predicate NoPending(db: Db, k: Key) {
    forall i :: i in db.jobs && db.jobs[i].key == k ==> !db.jobs[i].status.ActionPending?
  }

  ghost predicate NoOpen(db: Db, k: Key) {
    forall i :: i in db.jobs && db.jobs[i].key == k ==> !Open(db.jobs[i].status)
  }

  predicate HasOpenJob(jobs: map<nat, Job>, k: Key) {
    exists i :: i in jobs && jobs[i].key == k && Open(jobs[i].status)
  }

  predicate HasPendingReview(reviews: map<nat, Review>, k: Key) {
    exists i :: i in reviews && reviews[i].key == k && reviews[i].status.ReviewPending?
  }

  ghost predicate NoPendingReview(db: Db, k: Key) {
    forall i :: i in db.reviews && db.reviews[i].key == k ==> !db.reviews[i].status.ReviewPending?
  }

  /** A confirmed permanent suppression that the owner has archived. */
  predicate ArchivedPermanent(row: Row) {
    row.status.Suppressed? && row.suppressedUntil.None? && row.archivedAt.Some?
  }

  /** Rows with the given key in one table. */
  ghost predicate Mentions(db: Db, t: Table, k: Key) {
    match t
    case ProcessedMessages => exists p :: p in db.events.processed && p.0 == k
    case Audit => exists i :: 0 <= i < |db.events.audits| && db.events.audits[i].sender == k
    case LinkEvents => exists i :: 0 <= i < |db.events.links| && db.events.links[i].sender == k
    case OutboundEvents => exists i :: 0 <= i < |db.events.outbound| && db.events.outbound[i].sender == Some(k)
    case AutomatedMessages => exists p :: p in db.events.automated && p.0 == k
    case DialogSnapshots => k in db.snapshots
    case ReviewQueue => exists i :: i in db.reviews && db.reviews[i].key == k
    case PendingActions => exists i :: i in db.jobs && db.jobs[i].key == k
    case DecisionEvents => exists i :: 0 <= i < |db.events.decisions| && db.events.decisions[i].sender == k
    case CampaignEvents => exists p :: p in db.events.campaign && p.1 == k
    case EnforcementReviews => k in db.evidence
    case SenderState => k in db.rows
  }
}
