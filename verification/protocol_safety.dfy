/** Whole-run safety: a deletion job runs only while the restriction that caused it still stands. */
module ProtocolSafety {
  import opened Base
  import opened Tables
  import opened StoreSpec
  import opened Protocol
  import opened ProtocolInvariant
  import opened ProtocolSteps
  import StoreLemmas

  /** The very same restriction: status, revision, reason, and end. */
  ghost predicate SameRestriction(row: Row, row': Row) {
    row'.status == row.status && row'.revision == row.revision &&
    row'.suppressionReason == row.suppressionReason && row'.suppressedUntil == row.suppressedUntil
  }

  /** A sender's revision never falls, and a restriction that ends up at the same revision was there before. */
  ghost predicate RowEvolves(row: Row, row': Row) {
    row.revision <= row'.revision &&
    (row.revision == row'.revision && Restricted(row'.status) ==> SameRestriction(row, row'))
  }

  ghost predicate RowsEvolve(db: Db, db': Db) {
    forall k :: k in db.rows && k in db'.rows ==> RowEvolves(db.rows[k], db'.rows[k])
  }

  /** A job that is pending now is new, or was already pending with the same content. */
  ghost predicate JobsEvolve(db: Db, db': Db) {
    forall i :: i in db'.jobs && i < db.nextJob && db'.jobs[i].status.ActionPending? ==>
      i in db.jobs && db.jobs[i] == db'.jobs[i]
  }

  ghost predicate Evolves(db: Db, db': Db) {
    db.nextJob <= db'.nextJob && RowsEvolve(db, db') && JobsEvolve(db, db')
  }

  lemma TrustEvolves(cfg: Config, db: Db, k: Key, sec: Section, op: Op)
    requires Ready(cfg, db, k, sec, op) && Trusts(op)
    ensures Evolves(db, OpDb(db, k, sec, op))
  {
    match op {
      case DoAllow(now) => AllowEvolves(db, k, now);
      case DoRevoke(now) => RevokeEvolves(db, k, now);
      case DoRelease(now) => ReleaseEvolves(db, k, now);
      case DoResetTest(expected, now) => ResetTestEvolves(db, k, expected, now);
    }
  }

  lemma AllowEvolves(db: Db, k: Key, now: Time)
    ensures Evolves(db, Allow(db, k, now))
  {}

  lemma RevokeEvolves(db: Db, k: Key, now: Time)
    ensures Evolves(db, Revoke(db, k, now))
  {}

  lemma ReleaseEvolves(db: Db, k: Key, now: Time)
    ensures Evolves(db, ReleaseExpired(db, k, now))
  {}

  lemma ResetTestEvolves(db: Db, k: Key, expected: Time, now: Time)
    ensures Evolves(db, ResetTestSender(db, k, expected, now))
  {}

  lemma RestrictEvolves(cfg: Config, db: Db, k: Key, sec: Section, op: Op)
    requires Ready(cfg, db, k, sec, op) && Restricts(op)
    ensures Evolves(db, OpDb(db, k, sec, op))
  {
    match op {
      case DoQuarantine(control, now) => QuarantineEvolves(db, k, control, now);
      case DoSuppress(reason, until, reference, control, now) => SuppressEvolves(db, k, reason, until, reference,
        control, now);
      case DoExpire(e, suppression, control, now) => ExpireEvolves(db, k, e, suppression, control, now);
    }
  }

  lemma QuarantineEvolves(db: Db, k: Key, control: Option<Blob>, now: Time)
    ensures Evolves(db, Quarantine(db, k, control, now))
  {}

  lemma SuppressEvolves(db: Db, k: Key, reason: string, until: Option<Time>, reference: Option<Blob>,
                        control: Option<Blob>, now: Time)
    ensures Evolves(db, Suppress(db, k, reason, until, reference, control, now))
  {}

  lemma ExpireEvolves(db: Db, k: Key, e: Time, suppression: int, control: Option<Blob>, now: Time)
    ensures Evolves(db, ExpireChallenge(db, k, e, suppression, control, now))
  {}

  lemma BeginEvolves(db: Db, k: Key, id: string, digest: string, expiresAt: Time, prompt: string,
                     reference: Option<Blob>, profile: Profile, now: Time)
    ensures Evolves(db, BeginIssue(db, k, id, digest, expiresAt, prompt, reference, profile, now))
  {}

  lemma DeliverEvolves(cfg: Config, db: Db, k: Key, sec: Section, op: Op)
    requires Ready(cfg, db, k, sec, op) && Delivers(op)
    ensures Evolves(db, OpDb(db, k, sec, op))
  {
    match op {
      case DoBegin(id, digest, expiresAt, prompt, reference, profile, now) =>
        BeginEvolves(db, k, id, digest, expiresAt, prompt, reference, profile, now);
      case DoRefresh(expiresAt, now) => RefreshEvolves(db, k, expiresAt, now);
      case DoBind(messageId, now) => BindEvolves(db, k, messageId, now);
      case DoActivate(now) => ActivateEvolves(db, k, now);
      case DoReset(now) => ResetEvolves(db, k, now);
    }
  }

  lemma RefreshEvolves(db: Db, k: Key, expiresAt: Time, now: Time)
    ensures Evolves(db, RefreshExpiry(db, k, expiresAt, now))
  {}

  lemma BindEvolves(db: Db, k: Key, messageId: int, now: Time)
    ensures Evolves(db, BindMessage(db, k, messageId, now))
  {}

  lemma ActivateEvolves(db: Db, k: Key, now: Time)
    ensures Evolves(db, Activate(db, k, now))
  {}

  lemma ResetEvolves(db: Db, k: Key, now: Time)
    ensures Evolves(db, ResetIncomplete(db, k, now))
  {}

  lemma AnswerEvolves(cfg: Config, db: Db, k: Key, sec: Section, op: Op)
    requires Ready(cfg, db, k, sec, op) && Answers(op)
    ensures Evolves(db, OpDb(db, k, sec, op))
  {
    match op {
      case DoProvisional(now) => ProvisionalEvolves(db, k, now);
      case DoGuidance => GuidanceEvolves(db, k);
      case DoIncrement(now) => IncrementEvolves(db, k, now);
    }
  }

  lemma ProvisionalEvolves(db: Db, k: Key, now: Time)
    ensures Evolves(db, MarkProvisional(db, k, now))
  {}

  lemma GuidanceEvolves(db: Db, k: Key)
    ensures Evolves(db, MarkGuidance(db, k))
  {}

  lemma IncrementEvolves(db: Db, k: Key, now: Time)
    ensures Evolves(db, IncrementAttempts(db, k, now))
  {}

  lemma DeleteEvolves(cfg: Config, db: Db, k: Key, sec: Section, op: Op)
    requires Ready(cfg, db, k, sec, op) && Deletes(op)
    ensures Evolves(db, OpDb(db, k, sec, op))
  {}

  lemma MarkEvolves(cfg: Config, db: Db, k: Key, sec: Section, op: Op)
    requires Ready(cfg, db, k, sec, op) && Marks(op)
    ensures Evolves(db, OpDb(db, k, sec, op))
  {
    match op {
      case DoClearReference(revision) => ClearReferenceEvolves(db, k, revision);
      case DoArchive(now) => ArchiveEvolves(db, k, now);
      case DoUnarchive => UnarchiveEvolves(db, k);
    }
  }

  lemma ClearReferenceEvolves(db: Db, k: Key, revision: nat)
    ensures Evolves(db, ClearActionReference(db, k, revision))
  {}

  lemma ArchiveEvolves(db: Db, k: Key, now: Time)
    ensures Evolves(db, ArchiveRestriction(db, k, now))
  {}

  lemma UnarchiveEvolves(db: Db, k: Key)
    ensures Evolves(db, UnarchiveRestriction(db, k))
  {}

  lemma ReviewEvolves(cfg: Config, db: Db, k: Key, sec: Section, op: Op)
    requires Ready(cfg, db, k, sec, op) && Reviews(op)
    ensures Evolves(db, OpDb(db, k, sec, op))
  {
    match op {
      case DoReportFailure(failed, now, days) => FailureEvolves(db, failed, now, days);
      case DoEnqueue(blob, classification, expiresAt, now) => EnqueueEvolves(db, k, blob, classification, expiresAt,
        now);
      case DoDecide(verdict, now) => DecideEvolves(db, k, verdict, now);
      case DoForget(before) => ForgetEvolves(db, k, before);
    }
  }

  lemma FailureEvolves(db: Db, failed: Job, now: Time, days: nat)
    ensures Evolves(db, EnqueueFailure(db, failed, now, days))
  {}

  lemma EnqueueEvolves(db: Db, k: Key, blob: Blob, classification: string, expiresAt: Time, now: Time)
    ensures Evolves(db, Enqueue(db, k, blob, classification, expiresAt, now))
  {}

  lemma DecideEvolves(db: Db, k: Key, verdict: ReviewStatus, now: Time)
    requires !verdict.ReviewPending?
    ensures Evolves(db, DecideSender(db, k, verdict, now))
  {}

  lemma ForgetEvolves(db: Db, k: Key, before: Option<Time>)
    ensures Evolves(db, Forget(db, k, before))
  {}

  lemma OpEvolves(cfg: Config, db: Db, k: Key, sec: Section, op: Op)
    requires Ready(cfg, db, k, sec, op)
    ensures Evolves(db, OpDb(db, k, sec, op))
  {
    if Trusts(op) { TrustEvolves(cfg, db, k, sec, op); }
    else if Restricts(op) { RestrictEvolves(cfg, db, k, sec, op); }
    else if Delivers(op) { DeliverEvolves(cfg, db, k, sec, op); }
    else if Answers(op) { AnswerEvolves(cfg, db, k, sec, op); }
    else if Deletes(op) { DeleteEvolves(cfg, db, k, sec, op); }
    else if Marks(op) { MarkEvolves(cfg, db, k, sec, op); }
    else { ReviewEvolves(cfg, db, k, sec, op); }
  }

  lemma EvolveTrans(db: Db, mid: Db, db': Db)
    requires Evolves(db, mid) && Evolves(mid, db')
    requires forall k :: k in db.rows && k in db'.rows ==> k in mid.rows
    ensures Evolves(db, db')
  {}

  lemma PruneEvolves(db: Db, days: nat, archivedDays: Option<nat>, permitted: Option<set<Key>>, now: Time)
    ensures Evolves(db, Prune(db, days, archivedDays, permitted, now))
  {
    var released := ReleaseKeys(db, ExpiredKeys(db, permitted, now), now);
    var kept := Refresh(db, days, permitted, now);
    assert Evolves(db, released);
    assert Evolves(released, kept);
    EvolveTrans(db, released, kept);
    assert Evolves(kept, Prune(db, days, archivedDays, permitted, now));
    EvolveTrans(db, kept, Prune(db, days, archivedDays, permitted, now));
  }

  lemma SetModeEvolves(db: Db, mode: Mode, now: Time, days: nat)
    ensures Evolves(db, SetMode(db, mode, now, days))
  {
    StoreLemmas.SetModeEffect(db, mode, now, days);
  }

  lemma CommandEvolves(db: Db, k: Key, now: Time)
    ensures Evolves(db, Allow(db, k, now)) && Evolves(db, Revoke(db, k, now))
  {}

  /** One step of anyone. */
  lemma StepEvolves(cfg: Config, s: System, a: Act)
    requires Inv(cfg, s) && Enabled(cfg, s, a)
    ensures Evolves(s.db, Next(cfg, s, a).db)
  {
    match a {
      case Do(k, op) => OpEvolves(cfg, s.db, k, s.sections[k], op);
      case MaintenancePass(days, archivedDays, keys, now) => PruneEvolves(s.db, days, archivedDays, Some(keys), now);
      case CommandMode(mode, now, days) => SetModeEvolves(s.db, mode, now, days);
      case CommandAllow(k, now) => CommandEvolves(s.db, k, now);
      case CommandRevoke(k, now) => CommandEvolves(s.db, k, now);
      case _ =>
    }
  }

  // ---------------------------------------------------------------- a mode change

  ghost predicate NotPending(s: System, id: nat) {
    id < s.db.nextJob && !(id in s.db.jobs && s.db.jobs[id].status.ActionPending?)
  }

  /** What is not pending any more never is again: numbers are not given out twice. */
  lemma {:induction false} NeverPendingAgain(cfg: Config, states: seq<System>, acts: seq<Act>, n: nat, m: nat, id: nat)
    requires ValidConfig(cfg) && Run(cfg, states, acts) && n <= m < |states| && NotPending(states[n], id)
    ensures NotPending(states[m], id)
    decreases m
  {
    if m > n {
      NeverPendingAgain(cfg, states, acts, n, m - 1, id);
      ReachableInv(cfg, states, acts, m - 1);
      StepEvolves(cfg, states[m - 1], acts[m - 1]);
    }
  }

  /** A pending deletion that is bound to protect mode is never carried out after a change to monitor mode, whatever
      the mode becomes later. */
  lemma ModeChangeCancelsForGood(cfg: Config, states: seq<System>, acts: seq<Act>, n: nat, m: nat, id: nat, now: Time)
    requires ValidConfig(cfg) && Run(cfg, states, acts) && n < m < |states|
    requires acts[n].CommandMode? && acts[n].mode.Monitor?
    requires id in states[n].db.jobs && !states[n].db.jobs[id].modeIndependent
    ensures Claim(states[m].db, id, now).None?
  {
    ReachableInv(cfg, states, acts, n);
    StoreLemmas.SetModeEffect(states[n].db, Monitor, acts[n].now, acts[n].retentionDays);
    StepEvolves(cfg, states[n], acts[n]);
    assert states[n + 1].db == SetMode(states[n].db, Monitor, acts[n].now, acts[n].retentionDays);
    NeverPendingAgain(cfg, states, acts, n + 1, m, id);
  }

  // ---------------------------------------------------------------- the theorem

  /** At this state the job is stored, pending, and its sender is in the given restriction. */
  ghost predicate Stands(s: System, id: nat, job: Job, row: Row) {
    id in s.db.jobs && s.db.jobs[id] == job &&
    job.key in s.db.rows && SameRestriction(s.db.rows[job.key], row)
  }

  /** One step back: the job was new, or it already stood under the same restriction. */
  lemma StandsBefore(cfg: Config, s: System, a: Act, id: nat, job: Job, row: Row)
    requires Inv(cfg, s) && Enabled(cfg, s, a)
    requires job.status.ActionPending? && Restricted(row.status) && row.revision == job.expectedRevision
    requires Stands(Next(cfg, s, a), id, job, row)
    ensures id < s.db.nextJob ==> Stands(s, id, job, row)
    ensures id >= s.db.nextJob ==> id !in s.db.jobs
  {
    StepEvolves(cfg, s, a);
    if id < s.db.nextJob {
      assert Bound(s.db, job, IsTest(cfg, job.key));
      assert RowEvolves(s.db.rows[job.key], Next(cfg, s, a).db.rows[job.key]);
    }
  }

  /** Going back from a successful claim to the step that scheduled the job. */
  lemma {:induction false} StoodSince(cfg: Config, states: seq<System>, acts: seq<Act>, n: nat, id: nat, job: Job,
      row: Row)
    returns (first: nat)
    requires ValidConfig(cfg) && Run(cfg, states, acts) && n < |states|
    requires job.status.ActionPending? && Restricted(row.status) && row.revision == job.expectedRevision
    requires Stands(states[n], id, job, row)
    ensures 0 < first <= n && id !in states[first - 1].db.jobs
    ensures forall i :: first <= i <= n ==> Stands(states[i], id, job, row)
    decreases n
  {
    first := 0;
    if n > 0 {
      var before := states[n - 1];
      ReachableInv(cfg, states, acts, n - 1);
      StandsBefore(cfg, before, acts[n - 1], id, job, row);
      if id < before.db.nextJob {
        first := StoodSince(cfg, states, acts, n - 1, id, job, row);
      } else {
        first := n;
      }
    }
  }

  /** In every run: when a deletion job is claimed, there is a step that scheduled it, and from that step
      on, in every state, the sender stood in the very same restriction - whatever releases, repeated
      restrictions, challenges, erasures, mode changes, and crashes happened in between. */
  lemma DeletionIsSafe(cfg: Config, states: seq<System>, acts: seq<Act>, n: nat, id: nat, now: Time)
    returns (first: nat)
    requires ValidConfig(cfg) && Run(cfg, states, acts) && n < |states|
    requires Claim(states[n].db, id, now).Some?
    ensures 0 < first <= n && id !in states[first - 1].db.jobs
    ensures var job := Claim(states[n].db, id, now).value;
            var row := Tables.Sender(states[n].db, job.key);
            Restricted(row.status) && row.revision == job.expectedRevision &&
            !SuppressionExpired(row, now) && (states[n].db.mode.Protect? || job.modeIndependent) &&
            forall i :: first <= i <= n ==> Stands(states[i], id, job, row)
  {
    var job := Claim(states[n].db, id, now).value;
    first := StoodSince(cfg, states, acts, n, id, job, Tables.Sender(states[n].db, job.key));
  }

  // ---------------------------------------------------------------- between claim and finish

  /** From the claim of a deletion until it finishes, nothing any other task, the command line, or
      maintenance does changes the sender's restriction. */
  lemma {:induction false} ClaimHoldsTheRestriction(cfg: Config, states: seq<System>, acts: seq<Act>, a: nat, b: nat,
      k: Key, id: nat, job: Job)
    requires ValidConfig(cfg) && Run(cfg, states, acts) && a <= b < |states|
    requires forall i :: a <= i <= b ==> k in states[i].sections && states[i].sections[k] == Claimed(id, job)
    ensures k in states[a].db.rows
    ensures forall i :: a <= i <= b ==>
      k in states[i].db.rows && states[i].db.rows[k].revision == job.expectedRevision &&
      Restricted(states[i].db.rows[k].status) && SameRestriction(states[a].db.rows[k], states[i].db.rows[k])
    decreases b - a
  {
    ReachableInv(cfg, states, acts, b);
    assert SectionOk(cfg, states[b].db, k, states[b].sections[k]);
    if a < b {
      ClaimHoldsTheRestriction(cfg, states, acts, a, b - 1, k, id, job);
      ReachableInv(cfg, states, acts, b - 1);
      StepEvolves(cfg, states[b - 1], acts[b - 1]);
      assert RowEvolves(states[b - 1].db.rows[k], states[b].db.rows[k]);
    }
  }
}
