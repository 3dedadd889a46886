/** What becomes of the owner's commands: how long the row a command wrote stands, and who writes over it. */
module ProtocolDecisions {
  import opened Base
  import opened Tables
  import opened StoreSpec
  import opened Protocol
  import opened ProtocolInvariant
  import opened ProtocolSteps
  import ProtocolSafety
  import StoreLemmas

  // ---------------------------------------------------------------- who writes

  predicate Commands(a: Act, k: Key) {
    (a.CommandAllow? || a.CommandRevoke?) && a.k == k
  }

  /** The statements of a lock holder that write a row whatever it says. */
  predicate Overwrites(op: Op) {
    op.DoAllow? || op.DoRevoke? || op.DoBegin? || op.DoQuarantine? || op.DoSuppress?
  }

  predicate Writes(a: Act, k: Key) {
    Commands(a, k) || (a.Do? && a.k == k && Overwrites(a.op))
  }

  /** A row such as a command leaves. */
  predicate Free(db: Db, k: Key) {
    k in db.rows && (db.rows[k].status.Allowed? || db.rows[k].status.Unknown?)
  }

  ghost predicate SameRow(db: Db, db': Db, k: Key) {
    k in db.rows && k in db'.rows && db'.rows[k] == db.rows[k]
  }

  // ---------------------------------------------------------------- one step

  lemma DeliverLeavesFree(cfg: Config, db: Db, k: Key, sec: Section, op: Op)
    requires Ready(cfg, db, k, sec, op) && Free(db, k) && Delivers(op) && !Overwrites(op)
    ensures SameRow(db, OpDb(db, k, sec, op), k)
  {}

  lemma AnswersNeedAChallenge(cfg: Config, db: Db, k: Key, sec: Section, op: Op)
    requires Ready(cfg, db, k, sec, op) && Answers(op)
    ensures HasStatus(db, k, Challenged)
  {}

  lemma GuardedLeavesFree(db: Db, k: Key, sec: Section, op: Op)
    requires Free(db, k) && (op.DoRelease? || op.DoResetTest? || op.DoExpire?)
    ensures SameRow(db, OpDb(db, k, sec, op), k)
  {}

  lemma MarkLeavesFree(db: Db, k: Key, sec: Section, op: Op)
    requires Free(db, k) && (Marks(op) || Deletes(op))
    ensures SameRow(db, OpDb(db, k, sec, op), k)
  {}

  lemma ReviewLeavesFree(cfg: Config, db: Db, k: Key, sec: Section, op: Op)
    requires Ready(cfg, db, k, sec, op) && Free(db, k) && Reviews(op)
    ensures SameRow(db, OpDb(db, k, sec, op), k)
  {
    ReviewRows(cfg, db, k, sec, op);
  }

  /** The holder's guarded statements leave such a row as it is. */
  lemma OpLeavesFree(cfg: Config, db: Db, k: Key, sec: Section, op: Op)
    requires Ready(cfg, db, k, sec, op) && Free(db, k) && !Overwrites(op)
    ensures SameRow(db, OpDb(db, k, sec, op), k)
  {
    if Trusts(op) || op.DoExpire? { GuardedLeavesFree(db, k, sec, op); }
    else if Delivers(op) { DeliverLeavesFree(cfg, db, k, sec, op); }
    else if Answers(op) { AnswersNeedAChallenge(cfg, db, k, sec, op); }
    else if Reviews(op) { ReviewLeavesFree(cfg, db, k, sec, op); }
    else { MarkLeavesFree(db, k, sec, op); }
  }

  lemma OverwritingChanges(db: Db, k: Key, sec: Section, op: Op)
    requires Free(db, k) && Overwrites(op)
    ensures k in OpDb(db, k, sec, op).rows && OpDb(db, k, sec, op).rows[k] != db.rows[k]
  {}

  lemma TrustElsewhere(db: Db, k: Key, sec: Section, op: Op, other: Key)
    requires other != k && other in db.rows && (Trusts(op) || Restricts(op))
    ensures SameRow(db, OpDb(db, k, sec, op), other)
  {}

  lemma DeliverElsewhere(db: Db, k: Key, sec: Section, op: Op, other: Key)
    requires other != k && other in db.rows && (Delivers(op) || Answers(op))
    ensures SameRow(db, OpDb(db, k, sec, op), other)
  {}

  lemma MarkElsewhere(db: Db, k: Key, sec: Section, op: Op, other: Key)
    requires other != k && other in db.rows && Marks(op)
    ensures SameRow(db, OpDb(db, k, sec, op), other)
  {}

  lemma DeleteElsewhere(db: Db, k: Key, sec: Section, op: Op, other: Key)
    requires other != k && other in db.rows && Deletes(op)
    ensures SameRow(db, OpDb(db, k, sec, op), other)
  {}

  lemma OpElsewhere(cfg: Config, db: Db, k: Key, sec: Section, op: Op, other: Key)
    requires Ready(cfg, db, k, sec, op) && other != k && other in db.rows
    ensures SameRow(db, OpDb(db, k, sec, op), other)
  {
    if Trusts(op) || Restricts(op) { TrustElsewhere(db, k, sec, op, other); }
    else if Delivers(op) || Answers(op) { DeliverElsewhere(db, k, sec, op, other); }
    else if Reviews(op) { ReviewRows(cfg, db, k, sec, op); }
    else if Marks(op) { MarkElsewhere(db, k, sec, op, other); }
    else { DeleteElsewhere(db, k, sec, op, other); }
  }

  lemma PruneLeavesFree(db: Db, days: nat, archivedDays: Option<nat>, permitted: Option<set<Key>>, now: Time, k: Key)
    requires Free(db, k)
    ensures SameRow(db, Prune(db, days, archivedDays, permitted, now), k)
  {
    var kept := Refresh(db, days, permitted, now);
    assert kept.rows == ReleaseRows(db.rows, ExpiredKeys(db, permitted, now), now);
    assert k !in Forgets(kept, archivedDays, permitted, now);
  }

  lemma SetModeRows(db: Db, mode: Mode, now: Time, days: nat)
    ensures SetMode(db, mode, now, days).rows == db.rows
  {
    StoreLemmas.SetModeEffect(db, mode, now, days);
  }

  lemma CommandsChange(db: Db, k: Key, now: Time, other: Key)
    requires other in db.rows
    ensures SameRow(db, Allow(db, k, now), other) <==> k != other
    ensures SameRow(db, Revoke(db, k, now), other) <==> k != other
  {}

  /** Nobody else's act touches the row: only a command on the sender or a statement of its lock holder that writes
      whatever the row says, and each of these does change it. */
  lemma FreeRowStep(cfg: Config, s: System, a: Act, k: Key)
    requires Inv(cfg, s) && Enabled(cfg, s, a) && Free(s.db, k)
    ensures SameRow(s.db, Next(cfg, s, a).db, k) <==> !Writes(a, k)
  {
    match a {
      case Do(holder, op) => HolderStep(cfg, s, holder, op, k);
      case CommandAllow(sender, now) => CommandsChange(s.db, sender, now, k);
      case CommandRevoke(sender, now) => CommandsChange(s.db, sender, now, k);
      case _ => PassStep(cfg, s, a, k);
    }
  }

  lemma PassStep(cfg: Config, s: System, a: Act, k: Key)
    requires Enabled(cfg, s, a) && Free(s.db, k) && !a.Do? && !a.CommandAllow? && !a.CommandRevoke?
    ensures SameRow(s.db, Next(cfg, s, a).db, k)
  {
    match a {
      case MaintenancePass(days, archivedDays, keys, now) =>
        PruneLeavesFree(s.db, days, archivedDays, Some(keys), now, k);
      case CommandMode(mode, now, days) => SetModeRows(s.db, mode, now, days);
      case _ =>
    }
  }

  lemma HolderStep(cfg: Config, s: System, holder: Key, op: Op, k: Key)
    requires Inv(cfg, s) && Enabled(cfg, s, Do(holder, op)) && Free(s.db, k)
    ensures SameRow(s.db, OpDb(s.db, holder, s.sections[holder], op), k) <==> !(holder == k && Overwrites(op))
  {
    var sec := s.sections[holder];
    if holder != k { OpElsewhere(cfg, s.db, holder, sec, op, k); }
    else if Overwrites(op) { OverwritingChanges(s.db, k, sec, op); }
    else { OpLeavesFree(cfg, s.db, k, sec, op); }
  }

  // ---------------------------------------------------------------- whole runs

  /** At every state after the n-th act, up to the m-th state, the row is as that act wrote it. */
  ghost predicate Stands(states: seq<System>, n: nat, m: nat, k: Key)
    requires n < m < |states| && k in states[n + 1].db.rows
  {
    forall j :: n < j <= m ==> SameRow(states[n + 1].db, states[j].db, k)
  }

  lemma CommandFrees(cfg: Config, states: seq<System>, acts: seq<Act>, n: nat, k: Key)
    requires Run(cfg, states, acts) && n < |acts| && Commands(acts[n], k)
    ensures Free(states[n + 1].db, k)
    ensures states[n + 1].db.rows[k].revision == Tables.Sender(states[n].db, k).revision + 1
    ensures states[n + 1].sections == states[n].sections
  {
    assert states[n + 1] == Next(cfg, states[n], acts[n]);
  }

  /** What the owner's command wrote stands exactly until somebody writes the row again whatever it says: the next
      command, or the holder of the sender's lock who lets the sender in, begins a challenge or restricts it. */
  lemma {:induction false} DecisionStandsExactlyUntilWritten(cfg: Config, states: seq<System>, acts: seq<Act>, n: nat,
                                                             m: nat, k: Key)
    requires ValidConfig(cfg) && Run(cfg, states, acts) && n < m < |states| && Commands(acts[n], k)
    ensures k in states[n + 1].db.rows
    ensures Stands(states, n, m, k) <==> forall i :: n < i < m ==> !Writes(acts[i], k)
    decreases m
  {
    CommandFrees(cfg, states, acts, n, k);
    if m > n + 1 {
      DecisionStandsExactlyUntilWritten(cfg, states, acts, n, m - 1, k);
      if Stands(states, n, m - 1, k) {
        StandsOneMore(cfg, states, acts, n, m, k);
      }
    }
  }

  lemma StandsOneMore(cfg: Config, states: seq<System>, acts: seq<Act>, n: nat, m: nat, k: Key)
    requires ValidConfig(cfg) && Run(cfg, states, acts) && n + 1 < m < |states|
    requires Free(states[n + 1].db, k) && Stands(states, n, m - 1, k)
    ensures Stands(states, n, m, k) <==> !Writes(acts[m - 1], k)
  {
    StandsThrough(states, n, m, k);
    ReachableInv(cfg, states, acts, m - 1);
    FreeRowStep(cfg, states[m - 1], acts[m - 1], k);
  }

  lemma StandsThrough(states: seq<System>, n: nat, m: nat, k: Key)
    requires n + 1 < m < |states| && Free(states[n + 1].db, k) && Stands(states, n, m - 1, k)
    ensures Free(states[m - 1].db, k)
    ensures Stands(states, n, m, k) <==> SameRow(states[m - 1].db, states[m].db, k)
  {
    assert SameRow(states[n + 1].db, states[m - 1].db, k);
  }

  // ---------------------------------------------------------------- seen and unseen

  /** A view is never ahead of the row. */
  ghost predicate ViewsBehind(s: System) {
    forall k :: k in s.sections && s.sections[k].Viewed? ==>
      s.sections[k].view.revision <= Tables.Sender(s.db, k).revision
  }

  /** While a section is a view the row is not erased. */
  lemma RowNotErased(cfg: Config, s: System, a: Act, k: Key)
    requires Inv(cfg, s) && Enabled(cfg, s, a) && k in s.db.rows && k in s.sections && s.sections[k].Viewed?
    ensures k in Next(cfg, s, a).db.rows
  {
    match a {
      case Do(holder, op) => OpKeepsRow(cfg, s.db, holder, s.sections[holder], op, k);
      case MaintenancePass(days, archivedDays, keys, now) =>
        assert k !in keys;
        PruneKeepsUnlisted(s.db, days, archivedDays, keys, now, k);
      case CommandMode(mode, now, days) => SetModeRows(s.db, mode, now, days);
      case _ =>
    }
  }

  lemma PruneKeepsUnlisted(db: Db, days: nat, archivedDays: Option<nat>, keys: set<Key>, now: Time, k: Key)
    requires k in db.rows && k !in keys
    ensures k in Prune(db, days, archivedDays, Some(keys), now).rows
  {
    var kept := Refresh(db, days, Some(keys), now);
    assert kept.rows == ReleaseRows(db.rows, ExpiredKeys(db, Some(keys), now), now);
    assert k !in Forgets(kept, archivedDays, Some(keys), now);
  }

  lemma OpKeepsRow(cfg: Config, db: Db, holder: Key, sec: Section, op: Op, k: Key)
    requires Ready(cfg, db, holder, sec, op) && k in db.rows && (holder == k ==> sec.Viewed?)
    ensures k in OpDb(db, holder, sec, op).rows
  {
    if holder != k {
      OpElsewhere(cfg, db, holder, sec, op, k);
    } else if Reviews(op) {
      ReviewRows(cfg, db, holder, sec, op);
    } else {
      OwnRowStays(db, k, sec, op);
    }
  }

  lemma OwnRowStays(db: Db, k: Key, sec: Section, op: Op)
    requires k in db.rows && !Reviews(op)
    ensures k in OpDb(db, k, sec, op).rows
  {
    if Trusts(op) || Restricts(op) {
    } else if Delivers(op) || Answers(op) {
    } else {
    }
  }

  lemma ViewStaysBehind(cfg: Config, s: System, a: Act)
    requires Inv(cfg, s) && Enabled(cfg, s, a) && ViewsBehind(s)
    ensures ViewsBehind(Next(cfg, s, a))
  {
    var s' := Next(cfg, s, a);
    ProtocolSafety.StepEvolves(cfg, s, a);
    forall k | k in s'.sections && s'.sections[k].Viewed?
      ensures s'.sections[k].view.revision <= Tables.Sender(s'.db, k).revision
    {
      ViewFrom(cfg, s, a, k);
      if k in s.sections && s.sections[k] == s'.sections[k] && k in s.db.rows {
        RowNotErased(cfg, s, a, k);
      }
    }
  }

  /** A view is the one held before, or the row as it stands. */
  lemma ViewFrom(cfg: Config, s: System, a: Act, k: Key)
    requires Enabled(cfg, s, a)
    requires k in Next(cfg, s, a).sections && Next(cfg, s, a).sections[k].Viewed?
    ensures k in s.sections
    ensures Next(cfg, s, a).sections[k] == s.sections[k] ||
            (a == Do(k, Read) && Next(cfg, s, a).sections[k].view == Tables.Sender(s.db, k) &&
             Next(cfg, s, a).db == s.db)
  {}

  lemma {:induction false} ViewsAlwaysBehind(cfg: Config, states: seq<System>, acts: seq<Act>, n: nat)
    requires ValidConfig(cfg) && Run(cfg, states, acts) && n < |states|
    ensures ViewsBehind(states[n])
    decreases n
  {
    if n > 0 {
      ViewsAlwaysBehind(cfg, states, acts, n - 1);
      ReachableInv(cfg, states, acts, n - 1);
      ViewStaysBehind(cfg, states[n - 1], acts[n - 1]);
    }
  }

  /** The holder has had this view at every state from the n-th to the m-th. */
  ghost predicate Held(states: seq<System>, n: nat, m: nat, k: Key, view: Row)
    requires n <= m < |states|
  {
    forall j :: n <= j <= m ==> k in states[j].sections && states[j].sections[k] == Viewed(view)
  }

  lemma {:induction false} UnseenIsHeld(cfg: Config, states: seq<System>, acts: seq<Act>, n: nat, m: nat, k: Key,
                                        view: Row)
    requires Run(cfg, states, acts) && n < m < |states| && Commands(acts[n], k) && k in states[n + 1].db.rows
    requires Stands(states, n, m, k) && view != states[n + 1].db.rows[k]
    requires k in states[m].sections && states[m].sections[k] == Viewed(view)
    ensures Held(states, n, m, k, view)
    decreases m
  {
    ViewFrom(cfg, states[m - 1], acts[m - 1], k);
    if m > n + 1 {
      assert SameRow(states[n + 1].db, states[m - 1].db, k);
      UnseenIsHeld(cfg, states, acts, n, m - 1, k, view);
    }
  }

  /** The holder about to write saw another row than the command wrote exactly if it read the row before the command
      landed and has held on to what it read ever since. */
  lemma UnseenExactlyWhenReadBefore(cfg: Config, states: seq<System>, acts: seq<Act>, n: nat, m: nat, k: Key,
                                    view: Row)
    requires ValidConfig(cfg) && Run(cfg, states, acts) && n < m < |states| && Commands(acts[n], k)
    requires k in states[n + 1].db.rows && Stands(states, n, m, k)
    requires k in states[m].sections && states[m].sections[k] == Viewed(view)
    ensures view != states[n + 1].db.rows[k] <==> Held(states, n, m, k, view)
  {
    CommandFrees(cfg, states, acts, n, k);
    if view != states[n + 1].db.rows[k] {
      UnseenIsHeld(cfg, states, acts, n, m, k, view);
    }
    if Held(states, n, m, k, view) {
      ViewsAlwaysBehind(cfg, states, acts, n);
    }
  }

  predicate WritesOver(op: Op) {
    op.DoBegin? || op.DoQuarantine? || op.DoSuppress?
  }

  /** Over a standing command, a challenge is begun or the sender restricted only from a view of an unknown or
      provisional sender, or by the owner's spam verdict. */
  lemma EnabledFromAView(cfg: Config, states: seq<System>, acts: seq<Act>, n: nat, m: nat, k: Key, op: Op)
    requires ValidConfig(cfg) && Run(cfg, states, acts) && n < m < |states| && Commands(acts[n], k)
    requires k in states[n + 1].db.rows && Stands(states, n, m, k)
    requires k in states[m].sections && WritesOver(op) && OpEnabled(cfg, states[m].db, k, states[m].sections[k], op)
    ensures var sec := states[m].sections[k];
      (sec.Ruled? && op.DoSuppress?) ||
      (sec.Viewed? && (sec.view.status.Unknown? || sec.view.status.Provisional?))
  {
    CommandFrees(cfg, states, acts, n, k);
    assert SameRow(states[n + 1].db, states[m].db, k);
    ReachableInv(cfg, states, acts, m);
    assert SectionOk(cfg, states[m].db, k, states[m].sections[k]);
  }

  /** While an `allow` stands, the service can begin a challenge over it, or restrict the sender, exactly from a view
      of an unknown or provisional sender that was read before the command landed and is held ever since. So if nobody
      has the sender in view when the command lands, only the owner writes over it. */
  lemma AllowIsLostExactlyToAnOldView(cfg: Config, states: seq<System>, acts: seq<Act>, n: nat, m: nat, k: Key, op: Op)
    requires ValidConfig(cfg) && Run(cfg, states, acts) && n < m < |states|
    requires acts[n].CommandAllow? && acts[n].k == k
    requires forall i :: n < i < m ==> !Writes(acts[i], k)
    requires k in states[m].sections && !states[m].sections[k].Ruled? && WritesOver(op)
    ensures OpEnabled(cfg, states[m].db, k, states[m].sections[k], op) <==>
      k in states[n].sections && states[n].sections[k].Viewed? &&
      Held(states, n, m, k, states[n].sections[k].view) &&
      (states[n].sections[k].view.status.Unknown? || states[n].sections[k].view.status.Provisional?)
  {
    DecisionStandsExactlyUntilWritten(cfg, states, acts, n, m, k);
    AllowWrites(cfg, states, acts, n, k);
    var sec := states[m].sections[k];
    if OpEnabled(cfg, states[m].db, k, sec, op) {
      EnabledFromAView(cfg, states, acts, n, m, k, op);
      UnseenIsHeld(cfg, states, acts, n, m, k, sec.view);
      assert k in states[n].sections && states[n].sections[k] == sec;
    }
  }

  lemma AllowWrites(cfg: Config, states: seq<System>, acts: seq<Act>, n: nat, k: Key)
    requires Run(cfg, states, acts) && n < |acts| && acts[n].CommandAllow? && acts[n].k == k
    ensures HasStatus(states[n + 1].db, k, Allowed)
  {
    assert states[n + 1] == Next(cfg, states[n], acts[n]);
  }
}
