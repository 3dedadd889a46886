/** How delivering and recovering a challenge may end, as functions of the database and lemmas about them. */
module ServiceSpec {
  import opened Base
  import opened Tables
  import opened StoreSpec
  import opened Telegram
  import opened StateStore
  import Policy
  import Rules
  import Campaign

  const GRACE: int := 30

  // What the detector and the policy made of a message.
  datatype Decision = Permanent | Ask(profile: Profile)

  function DecisionOn(signals: seq<Policy.Signal>): Decision {
    match Policy.Decide(signals).action
    case PermanentSuppression => Permanent
    case StrictChallenge => Ask(Strict)
    case StandardChallenge => Ask(Standard)
  }

  // A fresh challenge: its identifier, the keyed digest of its answer, and the text to send.
  datatype Challenge = Challenge(id: string, digest: string, prompt: string)

  /** What handling one message comes to. */
  datatype Outcome =
    | Duplicate
    | LetThrough | AlreadyQuarantined | StillStarting
    | WouldDelete | WouldDeleteSuppressed | WouldChallenge
    | Started | FailSafe | QuarantinedRateLimited
    | Ignored | Incorrect | Passed | Suppressing | Quarantining

  const DELETE_DELAY: int := 10
  const TEST_RESET_DELAY: int := 60
  const FAILED_SUPPRESSION: int := 24 * HOUR
  const TIMEOUT_SUPPRESSION: int := 2 * HOUR

  /** An incoming private message. `answer` is the keyed digest of its number; None when it is not one. */
  datatype Incoming = Incoming(
    id: int,
    sentAt: Time,
    replyTo: Option<int>,
    reference: Option<Blob>,
    trusted: bool,
    trustedHistory: bool,
    answer: Option<string>,
    facts: Rules.Facts)

  /** Python's `or` on references: an empty one counts as missing. */
  function OrElse(first: Option<Blob>, second: Option<Blob>): Option<Blob> {
    if first.Some? && first.value != [] then first else second
  }

  /** How long a timeout keeps the sender out. */
  function TimeoutPenalty(profile: Option<Profile>): int {
    if profile == Some(Strict) then FAILED_SUPPRESSION else TIMEOUT_SUPPRESSION
  }

  /** Sent before the prompt, and not a reply to it: it cannot be an answer. */
  predicate BeforePrompt(state: Row, message: Incoming) {
    state.messageId.Some? && message.id < state.messageId.value && message.replyTo != state.messageId
  }

  predicate Late(state: Row, message: Incoming) {
    state.expiresAt.None? || state.expiresAt.value == 0 || message.sentAt > state.expiresAt.value
  }

  predicate Correct(state: Row, message: Incoming) {
    message.answer.Some? && state.answerDigest.Some? && state.answerDigest.value != "" &&
    state.answerDigest == message.answer
  }

  /** The deletion of the conversation is on: bound to the restriction that stands, and due at `at`. */
  ghost predicate DeletionSet(db: Db, deletions: map<nat, Time>, deletions': map<nat, Time>, k: Key, job: nat,
    reason: string,
                              reference: Blob, modeIndependent: bool, at: Time, now: Time)
  {
    k in db.rows && Restricted(db.rows[k].status) && job in db.jobs &&
    db.jobs[job] == Job(k, reason, reference, at, db.rows[k].revision, modeIndependent, ActionPending, now, None) &&
    deletions' == deletions[job := at]
  }

  /** Such a deletion can be claimed as long as the restriction lasts, in protect mode or if it does not need it. */
  lemma DeletionCanRun(db: Db, deletions: map<nat, Time>, deletions': map<nat, Time>, k: Key, job: nat, reason: string,
                       reference: Blob, modeIndependent: bool, at: Time, now: Time, later: Time)
    requires DeletionSet(db, deletions, deletions', k, job, reason, reference, modeIndependent, at, now)
    ensures Claim(db, job, later) ==
            if (db.mode.Protect? || modeIndependent) && !SuppressionExpired(db.rows[k], later) then Some(db.jobs[job])
            else None
  {}

  // What recovery answers; an exception may also escape it.
  datatype Recovery = Activated | NotActivated | Escaped

  // ---------------------------------------------------------------- how a delivery may end

  /** The challenge is on: tied to its message, prompt erased, running until `deadline`. */
  ghost predicate Running(db: Db, k: Key, message: Option<int>, deadline: Option<Time>) {
    HasStatus(db, k, Challenged) && db.rows[k].messageId == message &&
    db.rows[k].prompt.None? && db.rows[k].expiresAt == deadline
  }

  /** The question put to the sender, and a fresh count of answers. */
  ghost predicate Asks(row: Row, challenge: Challenge, reference: Option<Blob>, profile: Profile) {
    row.challengeId == Some(challenge.id) && row.answerDigest == Some(challenge.digest) &&
      row.profile == Some(profile) &&
    row.actionReference == reference && row.attempts == 0 && !row.guidanceSent
  }

  ghost predicate SameQuestion(row: Row, row': Row) {
    row'.challengeId == row.challengeId && row'.answerDigest == row.answerDigest && row'.profile == row.profile &&
    row'.actionReference == row.actionReference && row'.attempts == row.attempts &&
      row'.guidanceSent == row.guidanceSent
  }

  /** Nothing is left of the attempt. */
  ghost predicate Cleared(db: Db, k: Key) {
    HasStatus(db, k, Unknown) && db.rows[k] == WithoutChallenge(db.rows[k]) &&
    db.rows[k].actionReference.None? && db.rows[k].restrictionReference.None? && k !in db.evidence
  }

  /** Delivered but neither started nor taken back; the next start of the program takes it up again. */
  ghost predicate LeftArchiving(db: Db, k: Key, message: Option<int>, deadline: Option<Time>) {
    HasStatus(db, k, ChallengeArchiving) && db.rows[k].messageId == message && db.rows[k].expiresAt == deadline
  }

  /** The owner's command decided the sender meanwhile, and its row stands as the command wrote it. */
  ghost predicate Overtaken(db: Db, k: Key, race: Race) {
    !race.Nobody? && k in db.rows &&
    db.rows[k] == NO_ROW.(status := if race.OwnerAllows? then Allowed else Unknown,
                          revision := db.rows[k].revision, updatedAt := race.at)
  }

  function Struck(db: Db, k: Key, race: Race): Db {
    match race
    case Nobody => db
    case OwnerAllows(at) => StoreSpec.Allow(db, k, at)
    case OwnerRevokes(at) => StoreSpec.Revoke(db, k, at)
  }

  /** A command that finds the sender in a state only the dashboard may change is refused. */
  function Landed(db: Db, k: Key, race: Race): Db {
    if DashboardOnly(StatusOf(db, k)) then db else Struck(db, k, race)
  }

  /** The row was read before a command may have landed, and nothing else happened to it. */
  ghost predicate ReadBefore(db: Db, k: Key, row: Row) {
    Sender(db, k) == row ||
    (!DashboardOnly(row.status) && k in db.rows && (db.rows[k].status.Allowed? || db.rows[k].status.Unknown?))
  }

  lemma LandedAs(db: Db, k: Key, race: Race)
    ensures var db' := Landed(db, k, race);
      (db' == db || (!race.Nobody? && !DashboardOnly(StatusOf(db, k)) && Overtaken(db', k, race))) &&
      ReadBefore(db', k, Sender(db, k)) && db'.events == db.events && db'.mode == db.mode && db'.nextJob == db.nextJob
  {
    StruckAs(db, k, race);
  }

  /** The command line writes what it decided earlier. */
  method Interfere(store: Store, k: Key, race: Race)
    modifies store
    ensures OnlyTouches(old(store.Contents()), store.Contents(), k)
    ensures store.Contents() == Struck(old(store.Contents()), k, race)
  {
    if race.OwnerAllows? {
      store.Allow(k, race.at);
    } else if race.OwnerRevokes? {
      store.Revoke(k, race.at);
    }
  }

  /** The rest of the database is somebody else's business. */
  ghost predicate OnlyTouches(db: Db, db': Db, k: Key) {
    db'.rows - {k} == db.rows - {k} && db'.evidence - {k} == db.evidence - {k} &&
    db'.snapshots - {k} == db.snapshots - {k} && db'.mode == db.mode
  }

  ghost function RolledBack(db: Db, k: Key, archiveConfirmed: bool, w: Weather, now: Time): Db {
    if !archiveConfirmed then ResetIncomplete(db, k, now)
    else if Restores(w.restores) then ResetIncomplete(Struck(db, k, w.afterRestore), k, now)
    else Struck(db, k, w.afterRestore)
  }

  ghost function Bound(db: Db, k: Key, id: int, expiresAt: Time, sentAt: Time, now: Time): Db {
    if HasStatus(db, k, ChallengeIssuing) then BindMessage(RefreshExpiry(db, k, expiresAt, sentAt), k, id, now)
    else ResetIncomplete(db, k, now)
  }

  ghost predicate Activates(db: Db, k: Key, w: Weather) {
    w.activationRuns && HasStatus(db, k, ChallengeArchiving)
  }

  ghost function Enforced(db: Db, k: Key, w: Weather, now: Time): Db {
    if !w.archive.Done? then ResetIncomplete(db, k, now)
    else AfterArchive(db, k, w, now)
  }

  ghost function AfterArchive(db: Db, k: Key, w: Weather, now: Time): Db {
    if Activates(db, k, w) then Activate(db, k, now) else RolledBack(db, k, true, w, now)
  }

  /** A message the service sent is told apart from the owner's by its number. */
  function Numbered(db: Db, k: Key, send: Sending): Db {
    if send.Delivered? then RecordAutomated(db, k, send.id, send.at) else db
  }

  ghost function Presented(db: Db, k: Key, challenge: Challenge, reference: Option<Blob>, profile: Profile,
                           send: Sending, race: Race, ttl: nat, now: Time): Db
  {
    Numbered(
      Struck(BeginIssue(db, k, challenge.id, challenge.digest, now + ttl, challenge.prompt, reference, profile, now),
        k, race), k, send)
  }

  predicate Succeeds(w: Weather) {
    w.send.Delivered? && w.archive.Done? && w.activationRuns && w.afterSend.Nobody? && w.afterArchive.Nobody?
  }

  /** Archived, not activated, and never confirmed restored. */
  ghost predicate Abandons(w: Weather) {
    w.archive.Done? && !(w.activationRuns && w.afterArchive.Nobody?) && !Restores(w.restores)
  }

  /** What issuing a challenge answers. */
  function IssueOutcome(free: bool, w: Weather): Outcome {
    if free then
      (if Succeeds(w) then Started else FailSafe)
    else if w.archive.Done? then QuarantinedRateLimited
    else FailSafe
  }

  ghost predicate GivesUp(w: Weather) {
    w.send.Delivered? && w.afterSend.Nobody? && Abandons(w)
  }

  /** The command that had the last word, if any did, before a delivery that started with the prompt was over. */
  function LastRace(w: Weather): Race {
    if !w.afterSend.Nobody? then w.afterSend
    else if w.send.NotSent? then Nobody
    else LastRaceAfterSend(w)
  }

  function LastRaceAfterSend(w: Weather): Race {
    if !w.archive.Done? then w.afterArchive
    else if w.afterArchive.Nobody? && w.activationRuns then Nobody
    else if !w.afterRestore.Nobody? then w.afterRestore
    else w.afterArchive
  }

  /** Every delivery ends in one of three ways, or the way the owner decided meanwhile. */
  ghost predicate DeliveryEnds(db: Db, k: Key, w: Weather, ttl: nat) {
    if !LastRace(w).Nobody? then Overtaken(db, k, LastRace(w))
    else if Succeeds(w) then Running(db, k, Some(w.send.id), Some(w.send.at + ttl))
    else if GivesUp(w) then LeftArchiving(db, k, Some(w.send.id), Some(w.send.at + ttl))
    else Cleared(db, k)
  }

  // ---------------------------------------------------------------- where a delivery leaves the row

  lemma RollBackEnds(db: Db, k: Key, w: Weather, now: Time)
    requires HasStatus(db, k, ChallengeArchiving) || Overtaken(db, k, w.afterArchive)
    ensures var db' := RolledBack(db, k, true, w, now);
      if !w.afterRestore.Nobody? then Overtaken(db', k, w.afterRestore)
      else if !HasStatus(db, k, ChallengeArchiving) then db' == db
      else if Restores(w.restores) then Cleared(db', k)
      else db' == db
  {}

  lemma AfterArchiveEnds(db: Db, k: Key, w: Weather, now: Time)
    requires if w.afterArchive.Nobody? then HasStatus(db, k, ChallengeArchiving) else Overtaken(db, k, w.afterArchive)
    requires w.archive.Done?
    ensures var db' := AfterArchive(db, k, w, now);
      if !LastRaceAfterSend(w).Nobody? then Overtaken(db', k, LastRaceAfterSend(w))
      else if w.activationRuns then Running(db', k, db.rows[k].messageId, db.rows[k].expiresAt)
      else if Restores(w.restores) then Cleared(db', k)
      else db' == db
  {
    if Activates(db, k, w) {
    } else {
      RollBackEnds(db, k, w, now);
    }
  }

  lemma StruckAs(db: Db, k: Key, race: Race)
    ensures if race.Nobody? then Struck(db, k, race) == db else Overtaken(Struck(db, k, race), k, race)
  {}

  /** With no command in between, the archive decides: refused or raised clears everything, and
      behind a confirmed archive only the activation and the three restore tries matter. */
  lemma EnforcedEnds(db: Db, k: Key, w: Weather, now: Time)
    requires HasStatus(db, k, ChallengeArchiving)
    ensures var db' := Enforced(Struck(db, k, w.afterArchive), k, w, now);
      if !LastRaceAfterSend(w).Nobody? then Overtaken(db', k, LastRaceAfterSend(w))
      else if w.archive.Done? && w.activationRuns then Running(db', k, db.rows[k].messageId, db.rows[k].expiresAt)
      else if Abandons(w) then db' == db
      else Cleared(db', k)
  {
    var struck := Struck(db, k, w.afterArchive);
    StruckAs(db, k, w.afterArchive);
    if w.archive.Done? {
      AfterArchiveEnds(struck, k, w, now);
    } else {
      WithdrawnAs(struck, k, now);
    }
  }

  lemma WithdrawnAs(db: Db, k: Key, now: Time)
    ensures if Starting(db, k) then Cleared(ResetIncomplete(db, k, now), k) else ResetIncomplete(db, k, now) == db
  {}

  lemma PresentedAs(db: Db, k: Key, challenge: Challenge, reference: Option<Blob>, profile: Profile,
                    send: Sending, race: Race, ttl: nat, now: Time)
    ensures var db' := Presented(db, k, challenge, reference, profile, send, race, ttl, now);
      if race.Nobody? then HasStatus(db', k, ChallengeIssuing) else Overtaken(db', k, race)
  {}

  lemma BoundAs(db: Db, k: Key, id: int, expiresAt: Time, sentAt: Time, now: Time)
    ensures var db' := Bound(db, k, id, expiresAt, sentAt, now);
      (HasStatus(db, k, ChallengeIssuing) ==> LeftArchiving(db', k, Some(id), Some(expiresAt))) &&
      (!Starting(db, k) ==> db' == db)
  {}

  // ---------------------------------------------------------------- where a delivery without a slot leaves the row

  /** A confirmed archive is followed by an unconditional quarantine, whatever the command line did meanwhile. */
  function Unasked(db: Db, k: Key, identity: Option<Blob>, w: Weather, now: Time): Db {
    var struck := Struck(db, k, w.afterArchive);
    if w.archive.Done? then Quarantine(struck, k, identity, now) else struck
  }

  lemma UnaskedFrom(db: Db, struck: Db, k: Key, identity: Option<Blob>, w: Weather, now: Time)
    requires struck == Struck(db, k, w.afterArchive)
    ensures Unasked(db, k, identity, w, now).rows ==
            if w.archive.Done? then Quarantine(struck, k, identity, now).rows else struck.rows
  {}

  lemma SameRowsStruck(a: Db, b: Db, k: Key, race: Race)
    requires a.rows == b.rows
    ensures Struck(a, k, race).rows == Struck(b, k, race).rows
  {}

  lemma SameRowsUnasked(a: Db, b: Db, k: Key, identity: Option<Blob>, w: Weather, now: Time)
    requires a.rows == b.rows
    ensures Unasked(a, k, identity, w, now).rows == Unasked(b, k, identity, w, now).rows
  {
    SameRowsStruck(a, b, k, w.afterArchive);
    var struck, struck' := Struck(a, k, w.afterArchive), Struck(b, k, w.afterArchive);
    assert Quarantine(struck, k, identity, now).rows == Quarantine(struck', k, identity, now).rows;
  }

  /** The command whose word a delivery meets last, with a slot or without one. */
  function LastWord(free: bool, w: Weather): Race {
    if free then LastRace(w) else w.afterArchive
  }

  /** What the owner decides while the archive without a question is awaited survives exactly if that archive
      is not confirmed. */
  lemma DecisionSurvivesUnasked(db: Db, k: Key, identity: Option<Blob>, w: Weather, now: Time)
    requires !w.afterArchive.Nobody?
    ensures Overtaken(Unasked(db, k, identity, w, now), k, w.afterArchive) <==> !w.archive.Done?
    ensures w.archive.Done? ==>
      var row := Unasked(db, k, identity, w, now).rows[k];
      row.status.Quarantined? && row.revision == Sender(db, k).revision + 2
  {
    StruckAs(db, k, w.afterArchive);
  }

  // ---------------------------------------------------------------- where a recovery leaves the row

  /** The exceptions that recovery, unlike delivery, lets through. */
  predicate ArchiveEscapes(w: Weather) {
    w.archive.Raised? || (w.archive.Done? && !w.activationRuns)
  }

  ghost function Resumed(db: Db, k: Key, w: Weather, now: Time): Db {
    if ArchiveEscapes(w) then db
    else if w.archive.Refused? then ResetIncomplete(db, k, now)
    else AfterArchive(db, k, w, now)
  }

  function ResumeRace(w: Weather): Race {
    if ArchiveEscapes(w) then w.afterArchive else LastRaceAfterSend(w)
  }

  predicate HasPrompt(row: Row) {
    row.prompt.Some? && row.prompt.value != ""
  }

  /** Whether recovery has to send the prompt again. */
  predicate Resends(row: Row, recovered: Option<int>) {
    row.status.ChallengeIssuing? && recovered.None? && HasPrompt(row)
  }

  predicate Hopeless(row: Row, recovered: Option<int>, now: Time) {
    Expired(row, now) || (row.status.ChallengeIssuing? && recovered.None? && !HasPrompt(row))
  }

  predicate Expired(row: Row, now: Time) {
    row.expiresAt.None? || row.expiresAt.value <= now
  }

  /** The message a recovery that fails has to take back. */
  function MessageOf(row: Row, recovered: Option<int>, w: Weather, now: Time): Option<int> {
    if Expired(row, now) then (if recovered.Some? && recovered.value != 0 then recovered else row.messageId)
    else if row.status.ChallengeArchiving? then row.messageId
    else if recovered.Some? then recovered
    else if HasPrompt(row) && w.send.Delivered? then Some(w.send.id) else None
  }

  /** How the recovery of an incomplete challenge may end. The challenge stays half-delivered exactly
      when an exception of the archive or of the activating statement escapes. */
  ghost predicate RecoveryEnds(db': Db, k: Key, row: Row, recovery: Recovery, recovered: Option<int>,
                               w: Weather, ttl: nat, now: Time)
    requires ChallengeStarting(row.status)
  {
    if Hopeless(row, recovered, now) then recovery.NotActivated? && Cleared(db', k)
    else if Resends(row, recovered) && !w.afterSend.Nobody? then Overtaken(db', k, w.afterSend)
    else if Resends(row, recovered) && w.send.NotSent? then recovery.NotActivated? && Cleared(db', k)
    else if row.status.ChallengeArchiving? then ResumptionEnds(db', k, row.messageId, row.expiresAt, recovery, w)
    else ResumptionEnds(db', k, if recovered.Some? then recovered else Some(w.send.id), Some(now + ttl), recovery, w)
  }

  ghost predicate ResumptionEnds(db': Db, k: Key, message: Option<int>, deadline: Option<Time>, recovery: Recovery,
    w: Weather) {
    if !ResumeRace(w).Nobody? then Overtaken(db', k, ResumeRace(w))
    else if ArchiveEscapes(w) then recovery.Escaped? && LeftArchiving(db', k, message, deadline)
    else if w.archive.Done? then recovery.Activated? && Running(db', k, message, deadline)
    else recovery.NotActivated? && Cleared(db', k)
  }

  /** Recovery came as far as the archive call: the deadline is ahead and the prompt is, or was just, delivered. */
  predicate ReachesArchive(row: Row, recovered: Option<int>, w: Weather, now: Time) {
    row.expiresAt.Some? && now < row.expiresAt.value &&
    (row.status.ChallengeArchiving? || recovered.Some? ||
     (row.prompt.Some? && row.prompt.value != "" && w.send.Delivered? && w.afterSend.Nobody?))
  }

  /** Recovery leaves the row archiving exactly when it comes to the archive call, that call or the activating
      statement raises, and no command lands meanwhile. */
  lemma RecoveryStaysArchivingExactlyWhen(db': Db, k: Key, row: Row, recovery: Recovery, recovered: Option<int>,
                                          w: Weather, ttl: nat, now: Time)
    requires ChallengeStarting(row.status) && RecoveryEnds(db', k, row, recovery, recovered, w, ttl, now)
    ensures HasStatus(db', k, ChallengeArchiving) <==>
            ReachesArchive(row, recovered, w, now) && w.afterArchive.Nobody? &&
            (w.archive.Raised? || (w.archive.Done? && !w.activationRuns))
  {}

  /** A delivery ends running, abandoned or gone exactly unless the owner decided meanwhile; allowed exactly if
      the owner's last word was to allow. */
  lemma OwnerHasTheLastWord(db: Db, k: Key, w: Weather, ttl: nat)
    requires DeliveryEnds(db, k, w, ttl)
    ensures Overtaken(db, k, LastRace(w)) <==> !LastRace(w).Nobody?
    ensures StatusOf(db, k).Allowed? <==> LastRace(w).OwnerAllows?
    ensures StatusOf(db, k).Challenged? <==> Succeeds(w)
    ensures StatusOf(db, k).ChallengeArchiving? <==> GivesUp(w) && LastRace(w).Nobody?
  {}

  lemma ResumedEnds(db: Db, k: Key, w: Weather, now: Time)
    requires HasStatus(db, k, ChallengeArchiving)
    ensures var db' := Resumed(Struck(db, k, w.afterArchive), k, w, now);
      if !ResumeRace(w).Nobody? then Overtaken(db', k, ResumeRace(w))
      else if ArchiveEscapes(w) then db' == db
      else if w.archive.Done? then Running(db', k, db.rows[k].messageId, db.rows[k].expiresAt)
      else Cleared(db', k)
  {
    var struck := Struck(db, k, w.afterArchive);
    StruckAs(db, k, w.afterArchive);
    if ArchiveEscapes(w) {
    } else if w.archive.Done? {
      AfterArchiveEnds(struck, k, w, now);
    } else {
      WithdrawnAs(struck, k, now);
    }
  }
}
