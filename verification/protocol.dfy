/** The whole service as interleaved steps. Every store method is one step; between two steps of
    one task any other task, the command line, or a crash may act. A task works on a sender only
    while it holds that sender's lock, and `sections` records how far it got. */
module Protocol {
  import opened Base
  import opened Tables
  import opened StoreSpec

  // The dedicated test sender, and how many wrong answers a standard challenge allows.
  datatype Config = Config(testKey: Option<Key>, maxAttempts: nat)

  predicate IsTest(cfg: Config, k: Key) {
    cfg.testKey == Some(k)
  }

  predicate ValidConfig(cfg: Config) {
    1 <= cfg.maxAttempts
  }

  function Limit(cfg: Config, profile: Option<Profile>): nat {
    if profile == Some(Strict) then 1 else cfg.maxAttempts
  }

  /** What the holder of a sender's lock has done so far. */
  datatype Section =
    | Fresh                               // nothing read yet, or nothing left to rely on
    | Viewed(view: Row)                   // the sender's state was read
    | Begun                               // an incomplete challenge is being delivered
    | Exhausted                           // the last wrong answer was counted
    | TimedOut                            // the challenge was just expired
    | Ruled                               // the sender's reviews were decided
    | Terminal(revision: nat)             // a restriction was just written or re-read
    | Claimed(id: nat, job: Job)          // a deletion is being carried out
    | Maintenance                         // one of the locks maintenance holds

  datatype System = System(
    db: Db,
    sections: map<Key, Section>,          // one entry per held lock
    wrong: map<Key, nat>,                 // wrong answers counted since activation
    interrupted: set<Key>)                // exhausted challenges whose handling was cut short

  const INITIAL: System := System(EMPTY, map[], map[], {})

  /** One store method called inside a sender's critical section. */
  datatype Op =
    | Read
    | DoAllow(now: Time)
    | DoRevoke(now: Time)
    | DoRelease(now: Time)
    | DoResetTest(expectedUpdatedAt: Time, now: Time)
    | DoQuarantine(control: Option<Blob>, now: Time)
    | DoSuppress(reason: string, until: Option<Time>, reference: Option<Blob>, control: Option<Blob>, now: Time)
    | DoBegin(id: string, digest: string, expiresAt: Time, prompt: string, reference: Option<Blob>, profile: Profile,
      now: Time)
    | DoRefresh(expiresAt: Time, now: Time)
    | DoBind(messageId: int, now: Time)
    | DoActivate(now: Time)
    | DoReset(now: Time)
    | DoProvisional(now: Time)
    | DoGuidance
    | DoExpire(expiresAt: Time, suppression: int, control: Option<Blob>, now: Time)
    | DoIncrement(now: Time)
    | DoSchedule(reason: string, blob: Blob, executeAt: Time, modeIndependent: bool, now: Time)
    | DoClaim(job: nat, now: Time)
    | DoFinish(outcome: ActionStatus, now: Time)
    | DoClearReference(revision: nat)
    | DoReportFailure(failed: Job, now: Time, retentionDays: nat)
    | DoEnqueue(blob: Blob, classification: string, expiresAt: Time, now: Time)
    | DoDecide(verdict: ReviewStatus, now: Time)
    | DoArchive(now: Time)
    | DoUnarchive
    | DoForget(archivedBefore: Option<Time>)

  /** The programs that run under a sender's lock, as what each may call next. */
  predicate OpEnabled(cfg: Config, db: Db, k: Key, sec: Section, op: Op) {
    match op
    case Read => sec.Fresh? || sec.TimedOut?
    case DoAllow(_) => sec.Fresh? || sec.Viewed?
    case DoRevoke(_) => IsTest(cfg, k) && sec.Viewed? && sec.view.status.Allowed?
    case DoRelease(_) => sec.Fresh? || sec.Viewed?
    case DoResetTest(_, _) => IsTest(cfg, k) && (sec.Fresh? || sec.Viewed?)
    case DoQuarantine(_, _) =>
      sec.Exhausted? || sec.Terminal? ||
      (sec.Viewed? && (sec.view.status.Unknown? || sec.view.status.Provisional?))
    case DoSuppress(_, _, _, _, _) =>
      sec.Exhausted? || sec.Ruled? ||
      (sec.Viewed? && (sec.view.status.Unknown? || sec.view.status.Provisional? || sec.view.status.Challenged?))
    case DoBegin(_, _, _, _, _, _, _) =>
      sec.Viewed? && (sec.view.status.Unknown? || sec.view.status.Provisional? ||
                      (IsTest(cfg, k) && sec.view.status.Suppressed?))
    case DoRefresh(_, _) => Delivering(sec)
    case DoBind(_, _) => Delivering(sec)
    case DoActivate(_) => Delivering(sec)
    case DoReset(_) => sec.Fresh? || Delivering(sec)
    case DoProvisional(_) => sec.Viewed? && sec.view.status.Challenged?
    case DoGuidance => sec.Viewed? && sec.view.status.Challenged?
    case DoExpire(e, _, _, _) =>
      sec.Fresh? ||
      (sec.Viewed? && sec.view.status.Challenged? && e == (if sec.view.expiresAt.Some? then
        sec.view.expiresAt.value else 0))
    case DoIncrement(_) => sec.Viewed? && sec.view.status.Challenged?
    case DoSchedule(_, _, _, _, _) => sec.Terminal? || (sec.Viewed? && sec.view.status.Suppressed?)
    case DoClaim(_, _) => sec.Fresh?
    case DoFinish(outcome, _) => sec.Claimed? && !outcome.ActionPending?
    case DoDecide(verdict, _) => (sec.Fresh? || sec.Viewed?) && !verdict.ReviewPending?
    case DoForget(_) => sec.Fresh?
    case DoClearReference(_) => true
    case DoReportFailure(_, _, _) => true
    case DoEnqueue(_, _, _, _) => true
    case DoArchive(_) => true
    case DoUnarchive => true
  }

  predicate Delivering(sec: Section) {
    sec.Begun? || (sec.Viewed? && ChallengeStarting(sec.view.status))
  }

  /** The revision a deletion job is bound to: the one its holder last saw. */
  function SeenRevision(sec: Section): nat {
    match sec
    case Terminal(r) => r
    case Viewed(v) => v.revision
    case _ => 0
  }

  function OpDb(db: Db, k: Key, sec: Section, op: Op): Db {
    match op
    case Read => db
    case DoAllow(now) => Allow(db, k, now)
    case DoRevoke(now) => Revoke(db, k, now)
    case DoRelease(now) => ReleaseExpired(db, k, now)
    case DoResetTest(expected, now) => ResetTestSender(db, k, expected, now)
    case DoQuarantine(control, now) => Quarantine(db, k, control, now)
    case DoSuppress(reason, until, reference, control, now) => Suppress(db, k, reason, until, reference, control, now)
    case DoBegin(id, digest, expiresAt, prompt, reference, profile, now) =>
      BeginIssue(db, k, id, digest, expiresAt, prompt, reference, profile, now)
    case DoRefresh(expiresAt, now) => RefreshExpiry(db, k, expiresAt, now)
    case DoBind(messageId, now) => BindMessage(db, k, messageId, now)
    case DoActivate(now) => Activate(db, k, now)
    case DoReset(now) => ResetIncomplete(db, k, now)
    case DoProvisional(now) => MarkProvisional(db, k, now)
    case DoGuidance => MarkGuidance(db, k)
    case DoExpire(e, suppression, control, now) => ExpireChallenge(db, k, e, suppression, control, now)
    case DoIncrement(now) => IncrementAttempts(db, k, now)
    case DoSchedule(reason, blob, executeAt, free, now) =>
      Schedule(db, k, reason, blob, executeAt, SeenRevision(sec), free, now)
    case DoClaim(_, _) => db
    case DoFinish(outcome, now) =>
      if sec.Claimed? && !outcome.ActionPending? then Finish(db, sec.id, outcome, now) else db
    case DoClearReference(revision) => ClearActionReference(db, k, revision)
    case DoReportFailure(failed, now, days) => EnqueueFailure(db, failed, now, days)
    case DoEnqueue(blob, classification, expiresAt, now) => Enqueue(db, k, blob, classification, expiresAt, now)
    case DoDecide(verdict, now) => if verdict.ReviewPending? then db else DecideSender(db, k, verdict, now)
    case DoArchive(now) => ArchiveRestriction(db, k, now)
    case DoUnarchive => UnarchiveRestriction(db, k)
    case DoForget(before) => Forget(db, k, before)
  }

  /** What the holder may rely on afterwards. */
  function OpSection(cfg: Config, db: Db, k: Key, sec: Section, op: Op): Section {
    match op
    case Read => if sec.TimedOut? then Terminal(Tables.Sender(db, k).revision) else Viewed(Tables.Sender(db, k))
    case DoQuarantine(_, _) => Terminal(Tables.Sender(db, k).revision + 1)
    case DoSuppress(_, _, _, _, _) => Terminal(Tables.Sender(db, k).revision + 1)
    case DoBegin(_, _, _, _, _, _, _) => Begun
    case DoRefresh(_, _) => Begun
    case DoBind(_, _) => Begun
    case DoActivate(_) => Fresh
    case DoExpire(e, _, _, _) => if sec.Viewed? || Expires(db, k, e) then TimedOut else Fresh
    case DoIncrement(_) =>
      if sec.Viewed? && Tables.Sender(db, k).attempts + 1 >= Limit(cfg, sec.view.profile) then Exhausted else Fresh
    case DoClaim(id, now) =>
      var claimed := Claim(db, id, now);
      if claimed.Some? && claimed.value.key == k then Claimed(id, claimed.value) else Fresh
    case DoDecide(_, _) => Ruled
    case DoGuidance => sec
    case DoClearReference(_) => sec
    case DoReportFailure(_, _, _) => sec
    case DoEnqueue(_, _, _, _) => sec
    case DoArchive(_) => sec
    case DoUnarchive => sec
    case _ => Fresh
  }

  datatype Act =
    | Acquire(k: Key)
    | AcquireForMaintenance(k: Key)
    | Leave(k: Key)
    | Do(k: Key, op: Op)
    | MaintenancePass(retentionDays: nat, archivedDays: Option<nat>, keys: set<Key>, now: Time)
    | CommandAllow(k: Key, now: Time)
    | CommandRevoke(k: Key, now: Time)
    | CommandMode(mode: Mode, now: Time, retentionDays: nat)
    | Backfill(k: Key, control: Blob)
    | Unrelated(evidence: map<Key, Evidence>, snapshots: map<Key, Snapshot>, events: Events)
    | Crash

  predicate Enabled(cfg: Config, s: System, a: Act) {
    match a
    case Acquire(k) => k !in s.sections
    case AcquireForMaintenance(k) => k !in s.sections
    case Leave(k) => k in s.sections
    case Do(k, op) => k in s.sections && OpEnabled(cfg, s.db, k, s.sections[k], op)
    case MaintenancePass(_, _, keys, _) => forall k :: k in keys ==> k in s.sections && s.sections[k].Maintenance?
    case CommandAllow(k, _) => !DashboardOnly(StatusOf(s.db, k))
    case CommandRevoke(k, _) => !DashboardOnly(StatusOf(s.db, k))
    case CommandMode(_, _, _) => true
    case Backfill(_, _) => s.sections == map[]
    case Unrelated(_, _, _) => true
    case Crash => true
  }

  function ExhaustedKeys(sections: map<Key, Section>): set<Key> {
    set k | k in sections && sections[k].Exhausted?
  }

  function Counted(s: System, k: Key, op: Op): map<Key, nat> {
    if op.DoActivate? && HasStatus(s.db, k, ChallengeArchiving) then s.wrong[k := 0]
    else if op.DoIncrement? then s.wrong[k := if k in s.wrong then s.wrong[k] + 1 else 1]
    else s.wrong
  }

  function StillInterrupted(s: System, k: Key, op: Op): set<Key> {
    if op.DoActivate? && HasStatus(s.db, k, ChallengeArchiving) then s.interrupted - {k} else s.interrupted
  }

  function Next(cfg: Config, s: System, a: Act): System
    requires Enabled(cfg, s, a)
  {
    match a
    case Acquire(k) => s.(sections := s.sections[k := Fresh])
    case AcquireForMaintenance(k) => s.(sections := s.sections[k := Maintenance])
    case Leave(k) =>
      s.(sections := s.sections - {k},
         interrupted := if s.sections[k].Exhausted? then s.interrupted + {k} else s.interrupted)
    case Do(k, op) =>
      System(OpDb(s.db, k, s.sections[k], op),
             s.sections[k := OpSection(cfg, s.db, k, s.sections[k], op)],
             Counted(s, k, op),
             StillInterrupted(s, k, op))
    case MaintenancePass(days, archivedDays, keys, now) => s.(db := Prune(s.db, days, archivedDays, Some(keys), now))
    case CommandAllow(k, now) => s.(db := Allow(s.db, k, now))
    case CommandRevoke(k, now) => s.(db := Revoke(s.db, k, now))
    case CommandMode(mode, now, days) => s.(db := SetMode(s.db, mode, now, days))
    case Backfill(k, control) => s.(db := SaveControl(s.db, k, control))
    case Unrelated(evidence, snapshots, events) =>
      s.(db := s.db.(evidence := evidence, snapshots := snapshots, events := events))
    case Crash => s.(sections := map[], interrupted := s.interrupted + ExhaustedKeys(s.sections))
  }

  /** A run: every state follows from the one before by an enabled act. */
  ghost predicate Run(cfg: Config, states: seq<System>, acts: seq<Act>) {
    |states| == |acts| + 1 && states[0] == INITIAL &&
    forall i :: 0 <= i < |acts| ==> Enabled(cfg, states[i], acts[i]) && states[i + 1] == Next(cfg, states[i], acts[i])
  }
}
