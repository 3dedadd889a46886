/** The life of a challenge over whole runs, and what the preflight check can rely on. */
module ProtocolChallenge {
  import opened Base
  import opened Tables
  import opened StoreSpec
  import opened Protocol
  import opened ProtocolInvariant
  import opened ProtocolSteps
  import opened ProtocolSafety

  ghost predicate Pending(s: System, k: Key) {
    HasStatus(s.db, k, Challenged)
  }

  /** The calls that may end a challenge: a correct answer, exhaustion or a ruling, an exception,
      owner contact or review, and the expiry of exactly the stored deadline. */
  predicate EndingOp(op: Op, expiresAt: Option<Time>) {
    op.DoProvisional? || op.DoSuppress? || op.DoQuarantine? || op.DoAllow? ||
    (op.DoExpire? && expiresAt == Some(op.expiresAt))
  }

  /** The same challenge, still open. */
  ghost predicate SameChallenge(row: Row, row': Row) {
    row'.status == row.status && row'.revision == row.revision && row'.challengeId == row.challengeId &&
    row'.answerDigest == row.answerDigest && row'.expiresAt == row.expiresAt &&
    row'.messageId == row.messageId && row'.profile == row.profile
  }

  /** Closed: a new revision and no challenge column left. */
  ghost predicate Closed(row: Row, row': Row) {
    !InChallenge(row'.status) && row'.revision == row.revision + 1 && row'.challengeId.None? &&
    row'.answerDigest.None? && row'.expiresAt.None? && row'.messageId.None? && row'.profile.None? &&
    row'.attempts == 0
  }

  ghost predicate OpenOrClosed(db: Db, db': Db, k: Key, sec: Section, op: Op)
    requires k in db.rows
  {
    k in db'.rows &&
    (SameChallenge(db.rows[k], db'.rows[k]) || (EndingOp(op, db.rows[k].expiresAt) && Closed(db.rows[k], db'.rows[k])))
  }

  lemma TrustOnChallenge(cfg: Config, db: Db, k: Key, sec: Section, op: Op)
    requires Ready(cfg, db, k, sec, op) && Trusts(op) && HasStatus(db, k, Challenged)
    ensures OpenOrClosed(db, OpDb(db, k, sec, op), k, sec, op)
  {}

  lemma RestrictOnChallenge(cfg: Config, db: Db, k: Key, sec: Section, op: Op)
    requires Ready(cfg, db, k, sec, op) && Restricts(op) && HasStatus(db, k, Challenged)
    ensures OpenOrClosed(db, OpDb(db, k, sec, op), k, sec, op)
  {}

  lemma DeliverOnChallenge(cfg: Config, db: Db, k: Key, sec: Section, op: Op)
    requires Ready(cfg, db, k, sec, op) && Delivers(op) && HasStatus(db, k, Challenged)
    ensures OpenOrClosed(db, OpDb(db, k, sec, op), k, sec, op)
  {
    assert OpDb(db, k, sec, op) == db;
  }

  lemma AnswerOnChallenge(cfg: Config, db: Db, k: Key, sec: Section, op: Op)
    requires Ready(cfg, db, k, sec, op) && Answers(op) && HasStatus(db, k, Challenged)
    ensures OpenOrClosed(db, OpDb(db, k, sec, op), k, sec, op)
  {}

  lemma OtherOnChallenge(cfg: Config, db: Db, k: Key, sec: Section, op: Op)
    requires Ready(cfg, db, k, sec, op) && (Deletes(op) || Marks(op) || Reviews(op)) && HasStatus(db, k, Challenged)
    ensures OpenOrClosed(db, OpDb(db, k, sec, op), k, sec, op)
  {
    if Deletes(op) {
      DeletesOnChallenge(db, k, sec, op);
    } else if Reviews(op) {
      ReviewsOnChallenge(cfg, db, k, sec, op);
    } else {
      MarksOnChallenge(db, k, sec, op);
    }
    Untouched(db, OpDb(db, k, sec, op), k, sec, op);
  }

  lemma Untouched(db: Db, db': Db, k: Key, sec: Section, op: Op)
    requires HasStatus(db, k, Challenged) && k in db'.rows && db'.rows[k] == db.rows[k]
    ensures OpenOrClosed(db, db', k, sec, op)
  {}

  lemma ReviewsOnChallenge(cfg: Config, db: Db, k: Key, sec: Section, op: Op)
    requires Ready(cfg, db, k, sec, op) && Reviews(op) && HasStatus(db, k, Challenged)
    ensures k in OpDb(db, k, sec, op).rows && OpDb(db, k, sec, op).rows[k] == db.rows[k]
  {
    ReviewRows(cfg, db, k, sec, op);
  }

  lemma DeletesOnChallenge(db: Db, k: Key, sec: Section, op: Op)
    requires Deletes(op) && HasStatus(db, k, Challenged)
    ensures OpDb(db, k, sec, op).rows == db.rows
  {}

  lemma MarksOnChallenge(db: Db, k: Key, sec: Section, op: Op)
    requires Marks(op) && HasStatus(db, k, Challenged)
    ensures OpDb(db, k, sec, op) == db
  {}

  lemma OpOnChallenge(cfg: Config, db: Db, k: Key, sec: Section, op: Op)
    requires Ready(cfg, db, k, sec, op) && HasStatus(db, k, Challenged)
    ensures OpenOrClosed(db, OpDb(db, k, sec, op), k, sec, op)
  {
    if Trusts(op) { TrustOnChallenge(cfg, db, k, sec, op); }
    else if Restricts(op) { RestrictOnChallenge(cfg, db, k, sec, op); }
    else if Delivers(op) { DeliverOnChallenge(cfg, db, k, sec, op); }
    else if Answers(op) { AnswerOnChallenge(cfg, db, k, sec, op); }
    else { OtherOnChallenge(cfg, db, k, sec, op); }
  }

  lemma PruneLeavesChallenge(db: Db, days: nat, archivedDays: Option<nat>, permitted: Option<set<Key>>, now: Time,
      k: Key)
    requires HasStatus(db, k, Challenged)
    ensures k in Prune(db, days, archivedDays, permitted, now).rows
    ensures Prune(db, days, archivedDays, permitted, now).rows[k] == db.rows[k]
  {
    var kept := Refresh(db, days, permitted, now);
    assert kept.rows == ReleaseRows(db.rows, ExpiredKeys(db, permitted, now), now);
    assert k !in Forgets(kept, archivedDays, permitted, now);
  }

  /** An open challenge stays as it is, or the holder of the sender's lock closes it for good. */
  lemma ChallengeStep(cfg: Config, s: System, a: Act, k: Key)
    requires Inv(cfg, s) && Enabled(cfg, s, a) && Pending(s, k)
    ensures var s' := Next(cfg, s, a);
            k in s'.db.rows &&
            (SameChallenge(s.db.rows[k], s'.db.rows[k]) ||
             (a.Do? && a.k == k && EndingOp(a.op, s.db.rows[k].expiresAt) && Closed(s.db.rows[k], s'.db.rows[k])))
  {
    if a.Do? {
      if a.k == k {
        OpOnChallenge(cfg, s.db, k, s.sections[k], a.op);
      } else {
        OpQuiet(cfg, s.db, a.k, s.sections[a.k], a.op);
        assert Calm(s.db, Next(cfg, s, a).db, k);
      }
    } else {
      OutsiderOnChallenge(cfg, s, a, k);
    }
  }

  /** Nobody without the sender's lock touches an open challenge: the command line refuses it, and
      maintenance has no business with it. */
  lemma OutsiderOnChallenge(cfg: Config, s: System, a: Act, k: Key)
    requires Inv(cfg, s) && Enabled(cfg, s, a) && Pending(s, k) && !a.Do?
    ensures k in Next(cfg, s, a).db.rows && SameChallenge(s.db.rows[k], Next(cfg, s, a).db.rows[k])
  {
    match a {
      case MaintenancePass(days, archivedDays, keys, now) =>
        PruneLeavesChallenge(s.db, days, archivedDays, Some(keys), now, k);
      case CommandMode(mode, now, days) =>
        SetModeKept(cfg, s.db, mode, now, days);
        assert Calm(s.db, Next(cfg, s, a).db, k);
      case CommandAllow(k', now) =>
        AllowKept(cfg, s.db, k', now);
        assert Calm(s.db, Next(cfg, s, a).db, k);
      case CommandRevoke(k', now) =>
        RevokeKept(cfg, s.db, k', now);
        assert Calm(s.db, Next(cfg, s, a).db, k);
      case Backfill(_, _) =>
      case Unrelated(_, _, _) =>
      case Acquire(_) =>
      case AcquireForMaintenance(_) =>
      case Leave(_) =>
      case Crash =>
    }
  }

  /** A timer or late reply carrying any other deadline changes nothing. */
  lemma OtherDeadlineChangesNothing(db: Db, k: Key, e: Time, suppression: int, control: Option<Blob>, now: Time)
    requires k in db.rows && db.rows[k].expiresAt != Some(e)
    ensures ExpireChallenge(db, k, e, suppression, control, now) == db
  {}

  // ---------------------------------------------------------------- counting over a run

  ghost function Activations(states: seq<System>, k: Key, n: nat): nat
    requires n < |states|
  {
    if n == 0 then 0
    else Activations(states, k, n - 1) + (if !Pending(states[n - 1], k) && Pending(states[n], k) then 1 else 0)
  }

  ghost predicate Ended(s: System, s': System, k: Key) {
    Pending(s, k) && !(k in s'.db.rows && SameChallenge(s.db.rows[k], s'.db.rows[k]))
  }

  ghost function Endings(states: seq<System>, k: Key, n: nat): nat
    requires n < |states|
  {
    if n == 0 then 0
    else Endings(states, k, n - 1) + (if Ended(states[n - 1], states[n], k) then 1 else 0)
  }

  /** Over any run each activated challenge ends at most once: endings never outnumber activations, and
      the difference is exactly whether one is open now. */
  lemma {:induction false} EachChallengeEndsOnce(cfg: Config, states: seq<System>, acts: seq<Act>, k: Key, n: nat)
    requires ValidConfig(cfg) && Run(cfg, states, acts) && n < |states|
    ensures Activations(states, k, n) == Endings(states, k, n) + (if Pending(states[n], k) then 1 else 0)
    decreases n
  {
    if n > 0 {
      EachChallengeEndsOnce(cfg, states, acts, k, n - 1);
      ReachableInv(cfg, states, acts, n - 1);
      if Pending(states[n - 1], k) { ChallengeStep(cfg, states[n - 1], acts[n - 1], k); }
    }
  }

  /** Two states of one run: revisions do not fall while the sender's row stays. */
  lemma {:induction false} RevisionNeverFalls(cfg: Config, states: seq<System>, acts: seq<Act>, i: nat, j: nat, k: Key)
    requires ValidConfig(cfg) && Run(cfg, states, acts) && i <= j < |states|
    requires forall x :: i <= x <= j ==> k in states[x].db.rows
    ensures states[i].db.rows[k].revision <= states[j].db.rows[k].revision
    decreases j
  {
    if i < j {
      RevisionNeverFalls(cfg, states, acts, i, j - 1, k);
      ReachableInv(cfg, states, acts, j - 1);
      StepEvolves(cfg, states[j - 1], acts[j - 1]);
    }
  }

  /** The challenge that was opened at this revision. */
  ghost predicate OpenAt(s: System, k: Key, revision: nat) {
    Pending(s, k) && s.db.rows[k].revision == revision
  }

  /** While it stays open the challenge is the same one; once closed its revision is passed. */
  lemma {:induction false} OpenUntilClosed(cfg: Config, states: seq<System>, acts: seq<Act>, i: nat, j: nat, k: Key)
    requires ValidConfig(cfg) && Run(cfg, states, acts) && i <= j < |states| && Pending(states[i], k)
    requires forall x :: i <= x <= j ==> k in states[x].db.rows
    ensures var row, row' := states[i].db.rows[k], states[j].db.rows[k];
            SameChallenge(row, row') || row.revision < row'.revision
    decreases j
  {
    if i < j {
      OpenUntilClosed(cfg, states, acts, i, j - 1, k);
      ReachableInv(cfg, states, acts, j - 1);
      StepEvolves(cfg, states[j - 1], acts[j - 1]);
      if SameChallenge(states[i].db.rows[k], states[j - 1].db.rows[k]) {
        ChallengeStep(cfg, states[j - 1], acts[j - 1], k);
      }
    }
  }

  /** A challenge that was closed is never open again at any later state of the run. */
  lemma ClosedNeverReopens(cfg: Config, states: seq<System>, acts: seq<Act>, i: nat, m: nat, j: nat, k: Key)
    requires ValidConfig(cfg) && Run(cfg, states, acts) && i <= m <= j < |states| && Pending(states[i], k)
    requires forall x :: i <= x <= j ==> k in states[x].db.rows
    requires !OpenAt(states[m], k, states[i].db.rows[k].revision)
    ensures !OpenAt(states[j], k, states[i].db.rows[k].revision)
    ensures states[i].db.rows[k].revision < states[j].db.rows[k].revision
  {
    OpenUntilClosed(cfg, states, acts, i, m, k);
    RevisionNeverFalls(cfg, states, acts, m, j, k);
  }

  // ---------------------------------------------------------------- attempts

  /** The n-th act of the run activates the sender's challenge. */
  ghost predicate Activates(states: seq<System>, acts: seq<Act>, n: nat, k: Key)
    requires n < |acts| <= |states|
  {
    acts[n].Do? && acts[n].k == k && acts[n].op.DoActivate? && HasStatus(states[n].db, k, ChallengeArchiving)
  }

  /** It ends the handling of a last wrong answer before the sender was restricted: the program stops, or an
      exception leaves the handler. */
  ghost predicate CutsShort(states: seq<System>, acts: seq<Act>, n: nat, k: Key)
    requires n < |acts| <= |states|
  {
    (acts[n].Crash? || (acts[n].Leave? && acts[n].k == k)) &&
    k in states[n].sections && states[n].sections[k].Exhausted?
  }

  /** Wrong answers counted since the last activation, read off the acts. */
  ghost function WrongAnswers(states: seq<System>, acts: seq<Act>, n: nat, k: Key): nat
    requires n <= |acts| <= |states|
  {
    if n == 0 || Activates(states, acts, n - 1, k) then 0
    else WrongAnswers(states, acts, n - 1, k) +
         (if acts[n - 1].Do? && acts[n - 1].k == k && acts[n - 1].op.DoIncrement? then 1 else 0)
  }

  /** The handling was cut short at some act, and no activation came since. */
  ghost predicate CutShortSince(states: seq<System>, acts: seq<Act>, n: nat, k: Key)
    requires n <= |acts| <= |states|
  {
    exists i :: 0 <= i < n && CutsShort(states, acts, i, k) && NotActivatedIn(states, acts, i + 1, n, k)
  }

  ghost predicate NotActivatedIn(states: seq<System>, acts: seq<Act>, from: nat, to: nat, k: Key)
    requires to <= |acts| <= |states|
  {
    forall j :: from <= j < to ==> !Activates(states, acts, j, k)
  }

  lemma CutShortOneMore(states: seq<System>, acts: seq<Act>, n: nat, k: Key)
    requires n < |acts| <= |states|
    ensures CutShortSince(states, acts, n + 1, k) <==>
            CutsShort(states, acts, n, k) || (CutShortSince(states, acts, n, k) && !Activates(states, acts, n, k))
  {
    if CutsShort(states, acts, n, k) {
      assert NotActivatedIn(states, acts, n + 1, n + 1, k);
    }
    if CutShortSince(states, acts, n, k) && !Activates(states, acts, n, k) {
      var i :| 0 <= i < n && CutsShort(states, acts, i, k) && NotActivatedIn(states, acts, i + 1, n, k);
      assert NotActivatedIn(states, acts, i + 1, n + 1, k);
    }
    if CutShortSince(states, acts, n + 1, k) && !CutsShort(states, acts, n, k) {
      var i :| 0 <= i < n + 1 && CutsShort(states, acts, i, k) && NotActivatedIn(states, acts, i + 1, n + 1, k);
      assert i < n && NotActivatedIn(states, acts, i + 1, n, k);
      assert !Activates(states, acts, n, k);
    }
  }

  /** The two counters of the model say what the acts of the run say. */
  lemma {:induction false} CountersFollowActs(cfg: Config, states: seq<System>, acts: seq<Act>, n: nat, k: Key)
    requires Run(cfg, states, acts) && n <= |acts|
    ensures (if k in states[n].wrong then states[n].wrong[k] else 0) == WrongAnswers(states, acts, n, k)
    ensures k in states[n].interrupted <==> CutShortSince(states, acts, n, k)
  {
    if n > 0 {
      CountersFollowActs(cfg, states, acts, n - 1, k);
      CutShortOneMore(states, acts, n - 1, k);
      StepCounts(cfg, states[n - 1], acts[n - 1], k);
    }
  }

  lemma StepCounts(cfg: Config, s: System, a: Act, k: Key)
    requires Enabled(cfg, s, a)
    ensures var s' := Next(cfg, s, a);
      var mine := a.Do? && a.k == k;
      var activates := mine && a.op.DoActivate? && HasStatus(s.db, k, ChallengeArchiving);
      var was := if k in s.wrong then s.wrong[k] else 0;
      (if k in s'.wrong then s'.wrong[k] else 0) ==
        (if activates then 0 else was + (if mine && a.op.DoIncrement? then 1 else 0)) &&
      (k in s'.interrupted <==>
        ((a.Crash? || (a.Leave? && a.k == k)) && k in s.sections && s.sections[k].Exhausted?) ||
        (k in s.interrupted && !activates))
  {}

  /** Between handled messages an open challenge has exactly as many attempts as wrong answers were counted since
      it was activated, and fewer than its profile allows - unless the handling of the last one was cut short. */
  lemma AttemptsAreWrongAnswers(cfg: Config, states: seq<System>, acts: seq<Act>, n: nat, k: Key)
    requires ValidConfig(cfg) && Run(cfg, states, acts) && n < |states| && Pending(states[n], k)
    requires k in states[n].sections ==> !states[n].sections[k].Exhausted?
    ensures states[n].db.rows[k].attempts == WrongAnswers(states, acts, n, k)
    ensures states[n].db.rows[k].attempts < Limit(cfg, states[n].db.rows[k].profile) <==>
            !CutShortSince(states, acts, n, k)
  {
    ReachableInv(cfg, states, acts, n);
    assert AttemptsOk(cfg, states[n], k);
    CountersFollowActs(cfg, states, acts, n, k);
  }

  lemma Extend(cfg: Config, states: seq<System>, acts: seq<Act>, a: Act) returns (states': seq<System>, acts': seq<Act>)
    requires Run(cfg, states, acts) && Enabled(cfg, states[|acts|], a)
    ensures Run(cfg, states', acts') && |acts'| == |acts| + 1
    ensures states'[|acts'|] == Next(cfg, states[|acts|], a)
    ensures states'[..|states|] == states && acts' == acts + [a]
  {
    states', acts' := states + [Next(cfg, states[|acts|], a)], acts + [a];
  }

  const BEGUN_ROW: Row := NO_ROW.(status := ChallengeIssuing, challengeId := Some("c"), answerDigest := Some("d"),
                                  expiresAt := Some(160), prompt := Some("p"), profile := Some(Strict),
                                  updatedAt := 100)

  /** A run in which sender 7 is asked a strict challenge. */
  lemma StrictBegun(cfg: Config) returns (states: seq<System>, acts: seq<Act>, row: Row)
    ensures Run(cfg, states, acts)
    ensures row.status.ChallengeIssuing? && row.attempts == 0 && row.profile == Some(Strict)
    ensures states[|acts|].sections == map[7 := Begun] && states[|acts|].db == EMPTY.(rows := map[7 := row])
    ensures row == BEGUN_ROW
  {
    states, acts := [INITIAL], [];
    states, acts := Extend(cfg, states, acts, Acquire(7));
    states, acts := Extend(cfg, states, acts, Do(7, Read));
    assert states[|acts|].sections == map[7 := Viewed(NO_ROW)] && states[|acts|].db == EMPTY;
    states, acts := Extend(cfg, states, acts, Do(7, DoBegin("c", "d", 160, "p", None, Strict, 100)));
    row := BEGUN_ROW;
  }

  /** The same run, up to a challenge that a stop of the program left without its activation. */
  lemma StrictHalfDelivered(cfg: Config) returns (states: seq<System>, acts: seq<Act>, row: Row)
    ensures Run(cfg, states, acts)
    ensures row == BEGUN_ROW.(status := ChallengeArchiving, messageId := Some(5), updatedAt := 101)
    ensures states[|acts|].sections == map[7 := Begun] && states[|acts|].db == EMPTY.(rows := map[7 := row])
  {
    states, acts, row := StrictBegun(cfg);
    states, acts := Extend(cfg, states, acts, Do(7, DoBind(5, 101)));
    row := row.(status := ChallengeArchiving, messageId := Some(5), updatedAt := 101);
  }

  lemma StrictChallenge(cfg: Config) returns (states: seq<System>, acts: seq<Act>, row: Row)
    ensures Run(cfg, states, acts)
    ensures row == BEGUN_ROW.(status := Challenged, messageId := Some(5), prompt := None, revision := 1,
                              updatedAt := 102)
    ensures states[|acts|].sections == map[7 := Fresh] && states[|acts|].db == EMPTY.(rows := map[7 := row])
  {
    states, acts, row := StrictHalfDelivered(cfg);
    states, acts := Extend(cfg, states, acts, Do(7, DoActivate(102)));
    row := row.(status := Challenged, prompt := None, revision := row.revision + 1, updatedAt := 102);
  }

  /** Such an interruption exists: a crash after the only wrong answer of a strict challenge was counted
      leaves the challenge open with no attempt left. */
  lemma CrashCanLeaveNoAttempt(cfg: Config) returns (states: seq<System>, acts: seq<Act>)
    ensures Run(cfg, states, acts)
    ensures var last := states[|acts|];
            Pending(last, 7) && last.sections == map[] && last.db.rows[7].attempts >= Limit(cfg,
              last.db.rows[7].profile)
  {
    var row;
    states, acts, row := StrictChallenge(cfg);
    states, acts := Extend(cfg, states, acts, Do(7, Read));
    assert states[|acts|].sections == map[7 := Viewed(row)] && states[|acts|].db.rows == map[7 := row];
    states, acts := Extend(cfg, states, acts, Do(7, DoIncrement(110)));
    assert states[|acts|].sections == map[7 := Exhausted];
    states, acts := Extend(cfg, states, acts, Crash);
  }

  // ---------------------------------------------------------------- queues and preflight

  /** `protect_preflight`'s stale jobs: pending, but not for the restriction that stands. */
  ghost predicate Stale(db: Db, job: Job) {
    job.status.ActionPending? &&
    (job.key !in db.rows || !Restricted(db.rows[job.key].status) || db.rows[job.key].revision != job.expectedRevision)
  }

  /** In every reachable state only the dedicated test sender can have a stale job, so without one the
      preflight count is zero; each sender has at most one pending job and one pending review; finished
      jobs carry a finish time, completed ones and decided reviews have lost their reference. */
  lemma QueuesAlwaysConsistent(cfg: Config, states: seq<System>, acts: seq<Act>, n: nat)
    requires ValidConfig(cfg) && Run(cfg, states, acts) && n < |states|
    ensures var db := states[n].db;
            (forall i :: i in db.jobs && Stale(db, db.jobs[i]) ==> IsTest(cfg, db.jobs[i].key)) &&
            (forall i :: i in db.jobs ==> JobOk(db.jobs[i])) && OnePending(db) &&
            ReviewsOk(db)
  {
    ReachableInv(cfg, states, acts, n);
    var db := states[n].db;
    forall i | i in db.jobs && Stale(db, db.jobs[i])
      ensures IsTest(cfg, db.jobs[i].key)
    {
      assert Bound(db, db.jobs[i], IsTest(cfg, db.jobs[i].key));
    }
  }

  /** In every reachable state every sender row carries exactly the columns its status calls for. */
  lemma RowsAlwaysConsistent(cfg: Config, states: seq<System>, acts: seq<Act>, n: nat, k: Key)
    requires ValidConfig(cfg) && Run(cfg, states, acts) && n < |states| && k in states[n].db.rows
    ensures RowOk(states[n].db.rows[k], IsTest(cfg, k))
  {
    ReachableInv(cfg, states, acts, n);
  }
}
