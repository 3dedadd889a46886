/** Every step of every task keeps the invariant, so every reachable state has it. */
module ProtocolSteps {
  import opened Base
  import opened Tables
  import opened StoreSpec
  import opened Protocol
  import opened ProtocolInvariant

  ghost predicate Ready(cfg: Config, db: Db, k: Key, sec: Section, op: Op) {
    DbOk(cfg, db) && SectionOk(cfg, db, k, sec) && OpEnabled(cfg, db, k, sec, op)
  }

  lemma QuietFor(cfg: Config, db: Db, k: Key, sec: Section)
    requires DbOk(cfg, db) && SectionOk(cfg, db, k, sec) && !IsTest(cfg, k)
    requires sec.Exhausted? || sec.Terminal? || sec.Ruled? || sec.TimedOut? ||
             (sec.Viewed? && !Restricted(sec.view.status))
    ensures NoPending(db, k)
  {
    if sec.Exhausted? || sec.Viewed? { NotRestrictedMeansNoPending(cfg, db, k); }
  }

  predicate Trusts(op: Op) {
    op.DoAllow? || op.DoRevoke? || op.DoRelease? || op.DoResetTest?
  }

  predicate Restricts(op: Op) {
    op.DoQuarantine? || op.DoSuppress? || op.DoExpire?
  }

  predicate Delivers(op: Op) {
    op.DoBegin? || op.DoRefresh? || op.DoBind? || op.DoActivate? || op.DoReset?
  }

  predicate Answers(op: Op) {
    op.DoProvisional? || op.DoGuidance? || op.DoIncrement?
  }

  predicate Deletes(op: Op) {
    op.DoSchedule? || op.DoClaim? || op.DoFinish? || op.Read?
  }

  predicate Marks(op: Op) {
    op.DoClearReference? || op.DoArchive? || op.DoUnarchive?
  }

  predicate Reviews(op: Op) {
    op.DoReportFailure? || op.DoEnqueue? || op.DoDecide? || op.DoForget?
  }

  lemma TrustQuiet(cfg: Config, db: Db, k: Key, sec: Section, op: Op)
    requires Ready(cfg, db, k, sec, op) && Trusts(op)
    ensures Quiet(cfg, db, OpDb(db, k, sec, op), k)
  {
    match op {
      case DoAllow(now) => AllowKept(cfg, db, k, now);
      case DoRevoke(now) => RevokeKept(cfg, db, k, now);
      case DoRelease(now) => ReleaseExpiredKept(cfg, db, k, now);
      case DoResetTest(expected, now) => ResetTestKept(cfg, db, k, expected, now);
    }
  }

  lemma RestrictQuiet(cfg: Config, db: Db, k: Key, sec: Section, op: Op)
    requires Ready(cfg, db, k, sec, op) && Restricts(op)
    ensures Quiet(cfg, db, OpDb(db, k, sec, op), k)
  {
    if !IsTest(cfg, k) && !op.DoExpire? { QuietFor(cfg, db, k, sec); }
    match op {
      case DoQuarantine(control, now) => QuarantineKept(cfg, db, k, control, now);
      case DoSuppress(reason, until, reference, control, now) =>
        SuppressKept(cfg, db, k, reason, until, reference, control, now);
      case DoExpire(e, suppression, control, now) => ExpireKept(cfg, db, k, e, suppression, control, now);
    }
  }

  lemma DeliverQuiet(cfg: Config, db: Db, k: Key, sec: Section, op: Op)
    requires Ready(cfg, db, k, sec, op) && Delivers(op)
    ensures Quiet(cfg, db, OpDb(db, k, sec, op), k)
  {
    match op {
      case DoBegin(id, digest, expiresAt, prompt, reference, profile, now) =>
        BeginKept(cfg, db, k, id, digest, expiresAt, prompt, reference, profile, now);
      case DoRefresh(expiresAt, now) => RefreshKept(cfg, db, k, expiresAt, now);
      case DoBind(messageId, now) => BindKept(cfg, db, k, messageId, now);
      case DoActivate(now) => ActivateKept(cfg, db, k, now);
      case DoReset(now) => ResetKept(cfg, db, k, now);
    }
  }

  lemma AnswerQuiet(cfg: Config, db: Db, k: Key, sec: Section, op: Op)
    requires Ready(cfg, db, k, sec, op) && Answers(op)
    ensures Quiet(cfg, db, OpDb(db, k, sec, op), k)
  {
    if !IsTest(cfg, k) { NotRestrictedMeansNoPending(cfg, db, k); }
    match op {
      case DoProvisional(now) => ProvisionalKept(cfg, db, k, now);
      case DoGuidance => GuidanceKept(cfg, db, k);
      case DoIncrement(now) => IncrementKept(cfg, db, k, now);
    }
  }

  lemma DeleteQuiet(cfg: Config, db: Db, k: Key, sec: Section, op: Op)
    requires Ready(cfg, db, k, sec, op) && Deletes(op)
    ensures Quiet(cfg, db, OpDb(db, k, sec, op), k)
  {
    match op {
      case Read => SameWorkCalm(db, db);
      case DoClaim(_, _) => SameWorkCalm(db, db);
      case DoSchedule(reason, blob, executeAt, free, now) =>
        ScheduleKept(cfg, db, k, reason, blob, executeAt, SeenRevision(sec), free, now);
      case DoFinish(outcome, now) => FinishKept(cfg, db, k, sec.id, outcome, now);
    }
  }

  lemma MarkQuiet(cfg: Config, db: Db, k: Key, sec: Section, op: Op)
    requires Ready(cfg, db, k, sec, op) && Marks(op)
    ensures Quiet(cfg, db, OpDb(db, k, sec, op), k)
  {
    match op {
      case DoClearReference(revision) => ClearReferenceKept(cfg, db, k, revision);
      case DoArchive(now) => ArchiveKept(cfg, db, k, now);
      case DoUnarchive => UnarchiveKept(cfg, db, k);
    }
  }

  lemma ReviewQuiet(cfg: Config, db: Db, k: Key, sec: Section, op: Op)
    requires Ready(cfg, db, k, sec, op) && Reviews(op)
    ensures Quiet(cfg, db, OpDb(db, k, sec, op), k)
  {
    match op {
      case DoReportFailure(failed, now, days) =>
        AddUnlessPendingKept(cfg, db, failed.key, failed.reference, failed.reason + "_action_failed", now, days);
      case DoEnqueue(blob, classification, expiresAt, now) =>
        EnqueueKept(cfg, db, k, blob, classification, expiresAt, now);
      case DoDecide(verdict, now) => DecideKept(cfg, db, k, verdict, now);
      case DoForget(before) => ForgetKept(cfg, db, k, before);
    }
  }

  /** Every store call keeps the tables consistent and disturbs no other sender. */
  lemma OpQuiet(cfg: Config, db: Db, k: Key, sec: Section, op: Op)
    requires Ready(cfg, db, k, sec, op)
    ensures Quiet(cfg, db, OpDb(db, k, sec, op), k)
  {
    if Trusts(op) { TrustQuiet(cfg, db, k, sec, op); }
    else if Restricts(op) { RestrictQuiet(cfg, db, k, sec, op); }
    else if Delivers(op) { DeliverQuiet(cfg, db, k, sec, op); }
    else if Answers(op) { AnswerQuiet(cfg, db, k, sec, op); }
    else if Deletes(op) { DeleteQuiet(cfg, db, k, sec, op); }
    else if Marks(op) { MarkQuiet(cfg, db, k, sec, op); }
    else { ReviewQuiet(cfg, db, k, sec, op); }
  }

  /** After a call the holder can still rely on what its section says: a restriction it wrote is there at
      the revision it saw, an expired challenge left no pending job, and so on. */
  lemma OpSectionOk(cfg: Config, db: Db, k: Key, sec: Section, op: Op)
    requires Ready(cfg, db, k, sec, op)
    ensures SectionOk(cfg, OpDb(db, k, sec, op), k, OpSection(cfg, db, k, sec, op))
  {
    if Restricts(op) { RestrictSectionOk(cfg, db, k, sec, op); }
    else if Delivers(op) { DeliverSectionOk(cfg, db, k, sec, op); }
    else if Answers(op) { AnswerSectionOk(cfg, db, k, sec, op); }
    else if Deletes(op) { DeleteSectionOk(cfg, db, k, sec, op); }
    else if Marks(op) { MarkSectionOk(cfg, db, k, sec, op); }
    else if Reviews(op) { ReviewSectionOk(cfg, db, k, sec, op); }
  }

  lemma RestrictSectionOk(cfg: Config, db: Db, k: Key, sec: Section, op: Op)
    requires Ready(cfg, db, k, sec, op) && Restricts(op)
    ensures SectionOk(cfg, OpDb(db, k, sec, op), k, OpSection(cfg, db, k, sec, op))
  {
    if !IsTest(cfg, k) {
      if op.DoExpire? {
        if Expires(db, k, op.expiresAt) { NotRestrictedMeansNoPending(cfg, db, k); }
      } else {
        QuietFor(cfg, db, k, sec);
      }
    }
  }

  lemma DeliverSectionOk(cfg: Config, db: Db, k: Key, sec: Section, op: Op)
    requires Ready(cfg, db, k, sec, op) && Delivers(op)
    ensures SectionOk(cfg, OpDb(db, k, sec, op), k, OpSection(cfg, db, k, sec, op))
  {}

  lemma AnswerSectionOk(cfg: Config, db: Db, k: Key, sec: Section, op: Op)
    requires Ready(cfg, db, k, sec, op) && Answers(op)
    ensures SectionOk(cfg, OpDb(db, k, sec, op), k, OpSection(cfg, db, k, sec, op))
  {
    if op.DoGuidance? {
      GuidanceCalm(db, k);
      CalmKeepsSection(cfg, db, OpDb(db, k, sec, op), k, sec);
    }
  }

  lemma DeleteSectionOk(cfg: Config, db: Db, k: Key, sec: Section, op: Op)
    requires Ready(cfg, db, k, sec, op) && Deletes(op)
    ensures SectionOk(cfg, OpDb(db, k, sec, op), k, OpSection(cfg, db, k, sec, op))
  {}

  lemma MarkSectionOk(cfg: Config, db: Db, k: Key, sec: Section, op: Op)
    requires Ready(cfg, db, k, sec, op) && Marks(op)
    ensures SectionOk(cfg, OpDb(db, k, sec, op), k, OpSection(cfg, db, k, sec, op))
  {
    match op {
      case DoClearReference(revision) => ClearReferenceCalm(db, k, revision);
      case DoArchive(now) => ArchiveCalm(db, k, now);
      case DoUnarchive => UnarchiveCalm(db, k);
    }
    CalmKeepsSection(cfg, db, OpDb(db, k, sec, op), k, sec);
  }

  lemma ReviewSectionOk(cfg: Config, db: Db, k: Key, sec: Section, op: Op)
    requires Ready(cfg, db, k, sec, op) && Reviews(op)
    ensures SectionOk(cfg, OpDb(db, k, sec, op), k, OpSection(cfg, db, k, sec, op))
  {
    match op {
      case DoReportFailure(failed, now, days) =>
        AddUnlessPendingKept(cfg, db, failed.key, failed.reference, failed.reason + "_action_failed", now, days);
        CalmKeepsSection(cfg, db, OpDb(db, k, sec, op), k, sec);
      case DoEnqueue(blob, classification, expiresAt, now) =>
        EnqueueKept(cfg, db, k, blob, classification, expiresAt, now);
        CalmKeepsSection(cfg, db, OpDb(db, k, sec, op), k, sec);
      case DoDecide(verdict, now) => DecideKept(cfg, db, k, verdict, now);
      case DoForget(_) =>
    }
  }

  lemma GuidanceCalm(db: Db, k: Key)
    ensures Calm(db, MarkGuidance(db, k), k)
  {}

  lemma ClearReferenceCalm(db: Db, k: Key, revision: nat)
    ensures Calm(db, ClearActionReference(db, k, revision), k)
  {}

  lemma ArchiveCalm(db: Db, k: Key, now: Time)
    ensures Calm(db, ArchiveRestriction(db, k, now), k)
  {}

  lemma UnarchiveCalm(db: Db, k: Key)
    ensures Calm(db, UnarchiveRestriction(db, k), k)
  {}

  // ---------------------------------------------------------------- counting answers

  ghost predicate Untouched(cfg: Config, db: Db, k: Key, sec: Section, op: Op) {
    HasStatus(OpDb(db, k, sec, op), k, Challenged) ==>
      HasStatus(db, k, Challenged) && SameCase(db.rows[k], OpDb(db, k, sec, op).rows[k]) &&
      OpSection(cfg, db, k, sec, op).Exhausted? == sec.Exhausted?
  }

  lemma TrustUntouched(cfg: Config, db: Db, k: Key, sec: Section, op: Op)
    requires Ready(cfg, db, k, sec, op) && Trusts(op)
    ensures Untouched(cfg, db, k, sec, op)
  {}

  lemma RestrictUntouched(cfg: Config, db: Db, k: Key, sec: Section, op: Op)
    requires Ready(cfg, db, k, sec, op) && Restricts(op)
    ensures Untouched(cfg, db, k, sec, op)
  {}

  lemma DeliverUntouched(cfg: Config, db: Db, k: Key, sec: Section, op: Op)
    requires Ready(cfg, db, k, sec, op) && Delivers(op) && !op.DoActivate?
    ensures Untouched(cfg, db, k, sec, op)
  {}

  lemma AnswerUntouched(cfg: Config, db: Db, k: Key, sec: Section, op: Op)
    requires Ready(cfg, db, k, sec, op) && Answers(op) && !op.DoIncrement?
    ensures Untouched(cfg, db, k, sec, op)
  {}

  lemma DeleteUntouched(cfg: Config, db: Db, k: Key, sec: Section, op: Op)
    requires Ready(cfg, db, k, sec, op) && Deletes(op)
    ensures Untouched(cfg, db, k, sec, op)
  {
    assert OpDb(db, k, sec, op).rows == db.rows;
  }

  lemma MarkUntouched(cfg: Config, db: Db, k: Key, sec: Section, op: Op)
    requires Ready(cfg, db, k, sec, op) && Marks(op)
    ensures Untouched(cfg, db, k, sec, op)
  {
    assert OpSection(cfg, db, k, sec, op) == sec;
    match op {
      case DoClearReference(revision) => ClearReferenceCase(db, k, revision);
      case DoArchive(now) => ArchiveCase(db, k, now);
      case DoUnarchive => UnarchiveCase(db, k);
    }
  }

  lemma ClearReferenceCase(db: Db, k: Key, revision: nat)
    ensures HasStatus(ClearActionReference(db, k, revision), k, Challenged) ==>
      ClearActionReference(db, k, revision) == db
  {}

  lemma ArchiveCase(db: Db, k: Key, now: Time)
    ensures HasStatus(ArchiveRestriction(db, k, now), k, Challenged) ==> ArchiveRestriction(db, k, now) == db
  {}

  lemma UnarchiveCase(db: Db, k: Key)
    ensures HasStatus(UnarchiveRestriction(db, k), k, Challenged) ==> UnarchiveRestriction(db, k) == db
  {}

  lemma ReviewUntouched(cfg: Config, db: Db, k: Key, sec: Section, op: Op)
    requires Ready(cfg, db, k, sec, op) && Reviews(op)
    ensures Untouched(cfg, db, k, sec, op)
  {
    ReviewRows(cfg, db, k, sec, op);
  }

  lemma ReviewRows(cfg: Config, db: Db, k: Key, sec: Section, op: Op)
    requires Ready(cfg, db, k, sec, op) && Reviews(op)
    ensures OpDb(db, k, sec, op).rows == if op.DoForget? && Forgettable(db, k, op.archivedBefore) then
      db.rows - {k} else db.rows
  {
    match op {
      case DoReportFailure(failed, now, days) => assert EnqueueFailure(db, failed, now, days).rows == db.rows;
      case DoEnqueue(blob, classification, expiresAt, now) => assert Enqueue(db, k, blob, classification, expiresAt,
        now).rows == db.rows;
      case DoDecide(verdict, now) => assert DecideSender(db, k, verdict, now).rows == db.rows;
      case DoForget(before) =>
    }
  }

  /** A store call that leaves a challenge in place leaves its columns alone, unless it activates it or
      counts an answer. */
  lemma ChallengeUntouched(cfg: Config, db: Db, k: Key, sec: Section, op: Op)
    requires Ready(cfg, db, k, sec, op) && !op.DoActivate? && !op.DoIncrement?
    ensures Untouched(cfg, db, k, sec, op)
  {
    if Trusts(op) { TrustUntouched(cfg, db, k, sec, op); }
    else if Restricts(op) { RestrictUntouched(cfg, db, k, sec, op); }
    else if Delivers(op) { DeliverUntouched(cfg, db, k, sec, op); }
    else if Answers(op) { AnswerUntouched(cfg, db, k, sec, op); }
    else if Deletes(op) { DeleteUntouched(cfg, db, k, sec, op); }
    else if Marks(op) { MarkUntouched(cfg, db, k, sec, op); }
    else { ReviewUntouched(cfg, db, k, sec, op); }
  }

  lemma OpAttemptsOk(cfg: Config, s: System, k: Key, op: Op)
    requires Inv(cfg, s) && ValidConfig(cfg) && Enabled(cfg, s, Do(k, op))
    ensures AttemptsOk(cfg, Next(cfg, s, Do(k, op)), k)
  {
    var s' := Next(cfg, s, Do(k, op));
    var sec := s.sections[k];
    assert AttemptsOk(cfg, s, k);
    if HasStatus(s'.db, k, Challenged) {
      if op.DoActivate? {
        DeliverSectionOk(cfg, s.db, k, sec, op);
      } else if op.DoIncrement? {
      } else {
        ChallengeUntouched(cfg, s.db, k, sec, op);
      }
    }
  }

  /** A calm sender's count stays right. */
  lemma CalmKeepsAttempts(cfg: Config, s: System, s': System, k: Key)
    requires AttemptsOk(cfg, s, k) && Calm(s.db, s'.db, k)
    requires k in s.wrong ==> k in s'.wrong && s'.wrong[k] == s.wrong[k]
    requires (k in s'.interrupted || (k in s'.sections && s'.sections[k].Exhausted?)) <==>
             (k in s.interrupted || (k in s.sections && s.sections[k].Exhausted?))
    ensures AttemptsOk(cfg, s', k)
  {}

  // ---------------------------------------------------------------- one act

  lemma DoKept(cfg: Config, s: System, k: Key, op: Op)
    requires Inv(cfg, s) && ValidConfig(cfg) && Enabled(cfg, s, Do(k, op))
    ensures Inv(cfg, Next(cfg, s, Do(k, op)))
  {
    var s' := Next(cfg, s, Do(k, op));
    var sec := s.sections[k];
    OpQuiet(cfg, s.db, k, sec, op);
    OpSectionOk(cfg, s.db, k, sec, op);
    forall k' | k' in s'.sections
      ensures SectionOk(cfg, s'.db, k', s'.sections[k'])
    {
      if k' != k { CalmKeepsSection(cfg, s.db, s'.db, k', s.sections[k']); }
    }
    forall k'
      ensures AttemptsOk(cfg, s', k')
    {
      if k' != k { CalmKeepsAttempts(cfg, s, s', k'); } else { OpAttemptsOk(cfg, s, k, op); }
    }
  }

  /** An act of someone who holds no lock on the senders it disturbs, if those rows are outside the
      challenge and restriction statuses. */
  lemma OutsiderKept(cfg: Config, s: System, db': Db, keys: set<Key>)
    requires Inv(cfg, s) && DbOk(cfg, db')
    requires forall k :: k !in keys ==> Calm(s.db, db', k)
    requires forall k :: k in keys && k in s.sections ==>
               SectionOk(cfg, db', k, s.sections[k])
    requires forall k :: k in keys && HasStatus(db', k, Challenged) ==>
               HasStatus(s.db, k, Challenged) && SameCase(s.db.rows[k], db'.rows[k])
    ensures Inv(cfg, s.(db := db'))
  {
    var s' := s.(db := db');
    forall k | k in s'.sections
      ensures SectionOk(cfg, s'.db, k, s'.sections[k])
    {
      if k !in keys { CalmKeepsSection(cfg, s.db, db', k, s.sections[k]); }
    }
    forall k
      ensures AttemptsOk(cfg, s', k)
    {
      assert AttemptsOk(cfg, s, k);
      if k !in keys { CalmKeepsAttempts(cfg, s, s', k); }
    }
  }

  lemma CommandKept(cfg: Config, s: System, a: Act)
    requires Inv(cfg, s) && ValidConfig(cfg) && Enabled(cfg, s, a) && (a.CommandAllow? || a.CommandRevoke?)
    ensures Inv(cfg, Next(cfg, s, a))
  {
    var db' := Next(cfg, s, a).db;
    var k := a.k;
    if a.CommandAllow? { AllowKept(cfg, s.db, k, a.now); } else { RevokeKept(cfg, s.db, k, a.now); }
    if k in s.sections { CommandKeepsSection(cfg, s.db, k, s.sections[k], a); }
    OutsiderKept(cfg, s, db', {k});
  }

  /** The command line refuses every status a task relies on, so it cannot pull the rug. */
  lemma CommandKeepsSection(cfg: Config, db: Db, k: Key, sec: Section, a: Act)
    requires SectionOk(cfg, db, k, sec) && !DashboardOnly(StatusOf(db, k))
    requires a.CommandAllow? || a.CommandRevoke?
    ensures SectionOk(cfg, if a.CommandAllow? then Allow(db, k, a.now) else Revoke(db, k, a.now), k, sec)
  {}

  lemma PassKept(cfg: Config, s: System, a: Act)
    requires Inv(cfg, s) && ValidConfig(cfg) && Enabled(cfg, s, a) && a.MaintenancePass?
    ensures Inv(cfg, Next(cfg, s, a))
  {
    var db' := Next(cfg, s, a).db;
    PruneKept(cfg, s.db, a.retentionDays, a.archivedDays, a.keys, a.now);
    forall k | k in a.keys && HasStatus(db', k, Challenged)
      ensures HasStatus(s.db, k, Challenged) && SameCase(s.db.rows[k], db'.rows[k])
    {
      PruneKeepsChallenge(s.db, a.retentionDays, a.archivedDays, Some(a.keys), a.now, k);
    }
    OutsiderKept(cfg, s, db', a.keys);
  }

  lemma PruneKeepsChallenge(db: Db, days: nat, archivedDays: Option<nat>, permitted: Option<set<Key>>, now: Time,
      k: Key)
    requires HasStatus(Prune(db, days, archivedDays, permitted, now), k, Challenged)
    ensures HasStatus(db, k, Challenged) && SameCase(db.rows[k], Prune(db, days, archivedDays, permitted, now).rows[k])
  {
    var kept := Refresh(db, days, permitted, now);
    assert kept.rows == ReleaseRows(db.rows, ExpiredKeys(db, permitted, now), now);
    assert Prune(db, days, archivedDays, permitted, now).rows ==
           kept.rows - Forgets(kept, archivedDays, permitted, now);
  }

  lemma ModeKept(cfg: Config, s: System, a: Act)
    requires Inv(cfg, s) && ValidConfig(cfg) && Enabled(cfg, s, a) && a.CommandMode?
    ensures Inv(cfg, Next(cfg, s, a))
  {
    SetModeKept(cfg, s.db, a.mode, a.now, a.retentionDays);
    OutsiderKept(cfg, s, Next(cfg, s, a).db, {});
  }

  lemma BackfillKept(cfg: Config, s: System, a: Act)
    requires Inv(cfg, s) && ValidConfig(cfg) && Enabled(cfg, s, a) && a.Backfill?
    ensures Inv(cfg, Next(cfg, s, a))
  {
    SaveControlKept(cfg, s.db, a.k, a.control);
    OutsiderKept(cfg, s, Next(cfg, s, a).db, {a.k});
  }

  lemma UnrelatedKept(cfg: Config, s: System, a: Act)
    requires Inv(cfg, s) && ValidConfig(cfg) && a.Unrelated?
    ensures Inv(cfg, Next(cfg, s, a))
  {
    SameWorkCalm(s.db, Next(cfg, s, a).db);
    OutsiderKept(cfg, s, Next(cfg, s, a).db, {});
  }

  lemma LockKept(cfg: Config, s: System, a: Act)
    requires Inv(cfg, s) && ValidConfig(cfg) && Enabled(cfg, s, a)
    requires a.Acquire? || a.AcquireForMaintenance? || a.Leave? || a.Crash?
    ensures Inv(cfg, Next(cfg, s, a))
  {
    var s' := Next(cfg, s, a);
    SameWorkCalm(s.db, s'.db);
    forall k ensures AttemptsOk(cfg, s', k) { CalmKeepsAttempts(cfg, s, s', k); }
  }

  /** The invariant survives every act of every task, the command line, and a crash. */
  lemma StepKept(cfg: Config, s: System, a: Act)
    requires Inv(cfg, s) && ValidConfig(cfg) && Enabled(cfg, s, a)
    ensures Inv(cfg, Next(cfg, s, a))
  {
    match a {
      case Acquire(_) => LockKept(cfg, s, a);
      case AcquireForMaintenance(_) => LockKept(cfg, s, a);
      case Leave(_) => LockKept(cfg, s, a);
      case Crash => LockKept(cfg, s, a);
      case Do(k, op) => DoKept(cfg, s, k, op);
      case MaintenancePass(_, _, _, _) => PassKept(cfg, s, a);
      case CommandAllow(_, _) => CommandKept(cfg, s, a);
      case CommandRevoke(_, _) => CommandKept(cfg, s, a);
      case CommandMode(_, _, _) => ModeKept(cfg, s, a);
      case Backfill(_, _) => BackfillKept(cfg, s, a);
      case Unrelated(_, _, _) => UnrelatedKept(cfg, s, a);
    }
  }

  /** Every reachable state satisfies the invariant. */
  lemma {:induction false} ReachableInv(cfg: Config, states: seq<System>, acts: seq<Act>, n: nat)
    requires ValidConfig(cfg) && Run(cfg, states, acts) && n < |states|
    ensures Inv(cfg, states[n])
    decreases n
  {
    if n > 0 {
      ReachableInv(cfg, states, acts, n - 1);
      StepKept(cfg, states[n - 1], acts[n - 1]);
    }
  }
}
