/** The programs of the service as paths through the protocol's sections: the whole-run theorems cover them,
    and are not empty. */
module ProtocolPaths {
  import opened Base
  import opened Tables
  import opened StoreSpec
  import opened Protocol
  import ProtocolChallenge

  /** The holder of the sender's lock may make these calls one after the other. */
  ghost predicate Follows(cfg: Config, db: Db, k: Key, sec: Section, ops: seq<Op>)
    decreases |ops|
  {
    ops == [] ||
    (OpEnabled(cfg, db, k, sec, ops[0]) &&
     Follows(cfg, OpDb(db, k, sec, ops[0]), k, OpSection(cfg, db, k, sec, ops[0]), ops[1..]))
  }

  function Through(cfg: Config, db: Db, k: Key, sec: Section, ops: seq<Op>): Db
    decreases |ops|
  {
    if ops == [] then db
    else Through(cfg, OpDb(db, k, sec, ops[0]), k, OpSection(cfg, db, k, sec, ops[0]), ops[1..])
  }

  lemma PathOne(cfg: Config, db: Db, k: Key, sec: Section, a: Op)
    requires OpEnabled(cfg, db, k, sec, a)
    ensures Follows(cfg, db, k, sec, [a])
  {}

  lemma PathMore(cfg: Config, db: Db, k: Key, sec: Section, a: Op, rest: seq<Op>)
    requires OpEnabled(cfg, db, k, sec, a)
    requires Follows(cfg, OpDb(db, k, sec, a), k, OpSection(cfg, db, k, sec, a), rest)
    ensures Follows(cfg, db, k, sec, [a] + rest)
  {
    assert ([a] + rest)[1..] == rest;
  }

  lemma ThroughOne(cfg: Config, db: Db, k: Key, sec: Section, a: Op)
    ensures Through(cfg, db, k, sec, [a]) == OpDb(db, k, sec, a)
  {}

  lemma ThroughMore(cfg: Config, db: Db, k: Key, sec: Section, a: Op, rest: seq<Op>)
    ensures Through(cfg, db, k, sec, [a] + rest) ==
            Through(cfg, OpDb(db, k, sec, a), k, OpSection(cfg, db, k, sec, a), rest)
  {
    assert ([a] + rest)[1..] == rest;
  }

  /** Asking a challenge, up to its activation or to giving it up. */
  lemma DeliveryPath(cfg: Config, db: Db, k: Key, begin: Op, refresh: Op, bind: Op, end: Op)
    requires begin.DoBegin? && refresh.DoRefresh? && bind.DoBind? && (end.DoActivate? || end.DoReset?)
    requires StatusOf(db, k).Unknown? || StatusOf(db, k).Provisional?
    ensures Follows(cfg, db, k, Fresh, [Read] + ([begin] + ([refresh] + ([bind] + [end]))))
  {
    var view := Viewed(Tables.Sender(db, k));
    var begun := OpDb(db, k, view, begin);
    var renewed := OpDb(begun, k, Begun, refresh);
    PathOne(cfg, OpDb(renewed, k, Begun, bind), k, Begun, end);
    PathMore(cfg, renewed, k, Begun, bind, [end]);
    PathMore(cfg, begun, k, Begun, refresh, [bind] + [end]);
    PathMore(cfg, db, k, view, begin, [refresh] + ([bind] + [end]));
    PathMore(cfg, db, k, Fresh, Read, [begin] + ([refresh] + ([bind] + [end])));
  }

  /** The last wrong answer: count it, restrict, schedule the deletion for the revision just written. */
  lemma ExhaustionPath(cfg: Config, db: Db, k: Key, increment: Op, restrict: Op, schedule: Op)
    requires increment.DoIncrement? && (restrict.DoSuppress? || restrict.DoQuarantine?) && schedule.DoSchedule?
    requires HasStatus(db, k, Challenged) && db.rows[k].attempts + 1 >= Limit(cfg, db.rows[k].profile)
    ensures Follows(cfg, db, k, Fresh, [Read] + ([increment] + ([restrict] + [schedule])))
  {
    var view := Viewed(Tables.Sender(db, k));
    var counted := OpDb(db, k, view, increment);
    var restricted := OpDb(counted, k, Exhausted, restrict);
    var terminal := Terminal(Tables.Sender(counted, k).revision + 1);
    PathOne(cfg, restricted, k, terminal, schedule);
    PathMore(cfg, counted, k, Exhausted, restrict, [schedule]);
    PathMore(cfg, db, k, view, increment, [restrict] + [schedule]);
    PathMore(cfg, db, k, Fresh, Read, [increment] + ([restrict] + [schedule]));
  }

  /** Its job is bound to the restriction just written. */
  lemma ExhaustionBindsItsJob(cfg: Config, db: Db, k: Key, increment: Op, restrict: Op, schedule: Op)
    requires increment.DoIncrement? && (restrict.DoSuppress? || restrict.DoQuarantine?) && schedule.DoSchedule?
    requires HasStatus(db, k, Challenged) && db.rows[k].attempts + 1 >= Limit(cfg, db.rows[k].profile)
    ensures var db' := Through(cfg, db, k, Fresh, [Read] + ([increment] + ([restrict] + [schedule])));
      k in db'.rows && Restricted(db'.rows[k].status) && db.nextJob in db'.jobs &&
      db'.jobs[db.nextJob].expectedRevision == db'.rows[k].revision
  {
    var view := Viewed(Tables.Sender(db, k));
    var counted := OpDb(db, k, view, increment);
    var restricted := OpDb(counted, k, Exhausted, restrict);
    ThroughMore(cfg, db, k, Fresh, Read, [increment] + ([restrict] + [schedule]));
    ThroughMore(cfg, db, k, view, increment, [restrict] + [schedule]);
    ThroughMore(cfg, counted, k, Exhausted, restrict, [schedule]);
    ThroughOne(cfg, restricted, k, Terminal(Tables.Sender(counted, k).revision + 1), schedule);
  }

  /** A timeout: expire, read the restriction, schedule the deletion for its revision. */
  lemma TimeoutPath(cfg: Config, db: Db, k: Key, expire: Op, schedule: Op)
    requires expire.DoExpire? && schedule.DoSchedule? && Expires(db, k, expire.expiresAt)
    ensures Follows(cfg, db, k, Fresh, [expire] + ([Read] + [schedule]))
  {
    var expired := OpDb(db, k, Fresh, expire);
    var terminal := Terminal(Tables.Sender(expired, k).revision);
    PathOne(cfg, expired, k, terminal, schedule);
    PathMore(cfg, expired, k, TimedOut, Read, [schedule]);
    PathMore(cfg, db, k, Fresh, expire, [Read] + [schedule]);
  }

  lemma TimeoutBindsItsJob(cfg: Config, db: Db, k: Key, expire: Op, schedule: Op)
    requires expire.DoExpire? && schedule.DoSchedule? && Expires(db, k, expire.expiresAt)
    ensures var db' := Through(cfg, db, k, Fresh, [expire] + ([Read] + [schedule]));
      HasStatus(db', k, Suppressed) && db.nextJob in db'.jobs &&
      db'.jobs[db.nextJob].expectedRevision == db'.rows[k].revision
  {
    var expired := OpDb(db, k, Fresh, expire);
    ThroughMore(cfg, db, k, Fresh, expire, [Read] + [schedule]);
    ThroughMore(cfg, expired, k, TimedOut, Read, [schedule]);
    ThroughOne(cfg, expired, k, Terminal(Tables.Sender(expired, k).revision), schedule);
  }

  lemma ScheduleAndArchive(cfg: Config, db: Db, k: Key, sec: Section, schedule: Op, archive: Op)
    requires sec.Terminal? && schedule.DoSchedule? && archive.DoArchive?
    ensures Follows(cfg, db, k, sec, [schedule] + [archive])
  {
    PathOne(cfg, OpDb(db, k, sec, schedule), k, OpSection(cfg, db, k, sec, schedule), archive);
    PathMore(cfg, db, k, sec, schedule, [archive]);
  }

  /** The owner's spam verdict: decide, suppress, schedule, archive. */
  lemma SpamPath(cfg: Config, db: Db, k: Key, decide: Op, suppress: Op, schedule: Op, archive: Op)
    requires decide.DoDecide? && !decide.verdict.ReviewPending?
    requires suppress.DoSuppress? && schedule.DoSchedule? && archive.DoArchive?
    ensures Follows(cfg, db, k, Fresh, [decide] + ([suppress] + ([schedule] + [archive])))
  {
    var decided := OpDb(db, k, Fresh, decide);
    var suppressed := OpDb(decided, k, Ruled, suppress);
    var terminal := Terminal(Tables.Sender(decided, k).revision + 1);
    ScheduleAndArchive(cfg, suppressed, k, terminal, schedule, archive);
    PathMore(cfg, decided, k, Ruled, suppress, [schedule] + [archive]);
    PathMore(cfg, db, k, Fresh, decide, [suppress] + ([schedule] + [archive]));
  }

  /** The deletion worker: claim, delete, finish, and clear the reference or report the failure. */
  lemma DeletionPath(cfg: Config, db: Db, k: Key, claim: Op, finish: Op, after: Op)
    requires claim.DoClaim? && finish.DoFinish? && !finish.outcome.ActionPending?
    requires after.DoClearReference? || after.DoReportFailure?
    requires Claim(db, claim.job, claim.now).Some? && Claim(db, claim.job, claim.now).value.key == k
    ensures Follows(cfg, db, k, Fresh, [claim] + ([finish] + [after]))
  {
    var claimed := OpSection(cfg, db, k, Fresh, claim);
    var finished := OpDb(db, k, claimed, finish);
    PathOne(cfg, finished, k, OpSection(cfg, db, k, claimed, finish), after);
    PathMore(cfg, db, k, claimed, finish, [after]);
    PathMore(cfg, db, k, Fresh, claim, [finish] + [after]);
  }

  /** A run in which sender 7 is suppressed in protect mode. */
  lemma SuppressionHappens(cfg: Config) returns (states: seq<System>, acts: seq<Act>)
    ensures Run(cfg, states, acts)
    ensures states[|acts|].sections == map[7 := Terminal(1)]
    ensures states[|acts|].db == EMPTY.(mode := Protect, rows := map[7 := NO_ROW.(
      status := Suppressed, suppressionReason := Some("spam"), revision := 1, updatedAt := 100)])
  {
    states, acts := [INITIAL], [];
    states, acts := ProtocolChallenge.Extend(cfg, states, acts, CommandMode(Protect, 90, 7));
    states, acts := ProtocolChallenge.Extend(cfg, states, acts, Acquire(7));
    states, acts := ProtocolChallenge.Extend(cfg, states, acts, Do(7, Read));
    assert states[|acts|].sections == map[7 := Viewed(NO_ROW)] && states[|acts|].db == EMPTY.(mode := Protect);
    states, acts := ProtocolChallenge.Extend(cfg, states, acts, Do(7, DoSuppress("spam", None, None, None, 100)));
  }

  /** A run in which a deletion can be claimed: the safety theorem speaks about runs that exist. */
  lemma DeletionsHappen(cfg: Config) returns (states: seq<System>, acts: seq<Act>)
    ensures Run(cfg, states, acts)
    ensures Claim(states[|acts|].db, 1, 200).Some?
  {
    states, acts := SuppressionHappens(cfg);
    states, acts := ProtocolChallenge.Extend(cfg, states, acts, Do(7, DoSchedule("spam", [], 100, false, 100)));
    assert states[|acts|].db.jobs[1] == Job(7, "spam", [], 100, 1, false, ActionPending, 100, None);
  }
}
