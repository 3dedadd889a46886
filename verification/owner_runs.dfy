/** Recovering a challenge and carrying out the owner's decisions are runs of the protocol, too. */
module OwnerRuns {
  import opened Base
  import opened Tables
  import opened StoreSpec
  import opened Telegram
  import opened ServiceSpec
  import opened Service
  import opened Protocol
  import opened ServiceRuns
  import Owner

  // ---------------------------------------------------------------- recovery

  /** From an archiving row on. */
  lemma ResumptionRun(cfg: Config, p: System, k: Key, w: Weather, now: Time)
    returns (acts': seq<Act>, p': System, recovery: Recovery)
    requires k in p.sections && Delivering(p.sections[k]) && HasStatus(p.db, k, ChallengeArchiving)
    requires Undisturbed(w)
    ensures Leads(cfg, p, acts', p', k)
    ensures ResumptionEnds(p'.db, k, p.db.rows[k].messageId, p.db.rows[k].expiresAt, recovery, w)
  {
    acts', p', recovery := [], p, Escaped;
    if !ArchiveEscapes(w) {
      if w.archive.Done? {
        recovery := Activated;
        acts', p' := Call(cfg, p, [], p, k, DoActivate(now));
      } else {
        recovery := NotActivated;
        WithdrawnAs(p.db, k, now);
        acts', p' := Call(cfg, p, [], p, k, DoReset(now));
      }
    }
  }

  lemma ResumedRun(cfg: Config, p: System, acts: seq<Act>, mid: System, k: Key, w: Weather, now: Time)
    returns (acts': seq<Act>, p': System, recovery: Recovery)
    requires Leads(cfg, p, acts, mid, k) && Delivering(mid.sections[k]) && HasStatus(mid.db, k, ChallengeArchiving)
    requires Undisturbed(w)
    ensures Leads(cfg, p, acts', p', k)
    ensures ResumptionEnds(p'.db, k, mid.db.rows[k].messageId, mid.db.rows[k].expiresAt, recovery, w)
  {
    var rest;
    rest, p', recovery := ResumptionRun(cfg, mid, k, w, now);
    Join(cfg, p, acts, mid, rest, p', k);
    acts' := acts + rest;
  }

  lemma BindingRun(cfg: Config, p: System, acts: seq<Act>, mid: System, k: Key, id: int, expiresAt: Time, now: Time)
    returns (acts': seq<Act>, p': System)
    requires Leads(cfg, p, acts, mid, k) && Delivering(mid.sections[k]) && HasStatus(mid.db, k, ChallengeIssuing)
    ensures Leads(cfg, p, acts', p', k) && p'.sections[k] == Begun
    ensures LeftArchiving(p'.db, k, Some(id), Some(expiresAt))
  {
    acts', p' := Call(cfg, p, acts, mid, k, DoRefresh(expiresAt, now));
    acts', p' := Call(cfg, p, acts', p', k, DoBind(id, now));
  }

  /** The recovery of an incomplete challenge. */
  lemma RecoveryIsARun(cfg: Config, s: GatekeeperService, p: System, k: Key, recovered: Option<int>, w: Weather,
                       now: Time)
    returns (acts: seq<Act>, p': System, recovery: Recovery)
    requires k in p.sections && p.sections[k].Fresh? && Undisturbed(w) && Starting(p.db, k)
    ensures Leads(cfg, p, acts, p', k)
    ensures RecoveryEnds(p'.db, k, p.db.rows[k], recovery, recovered, w, s.ttl, now)
  {
    var row := p.db.rows[k];
    acts, p' := Call(cfg, p, [], p, k, Read);
    if Hopeless(row, recovered, now) || (Resends(row, recovered) && w.send.NotSent?) {
      recovery := NotActivated;
      WithdrawnAs(p'.db, k, now);
      acts, p' := Call(cfg, p, acts, p', k, DoReset(now));
    } else if row.status.ChallengeArchiving? {
      acts, p', recovery := ResumedRun(cfg, p, acts, p', k, w, now);
    } else {
      acts, p' := BindingRun(cfg, p, acts, p', k, if recovered.Some? then recovered.value else w.send.id, now + s.ttl,
        now);
      acts, p', recovery := ResumedRun(cfg, p, acts, p', k, w, now);
    }
  }

  // ---------------------------------------------------------------- the owner

  lemma AllowRun(cfg: Config, p: System, k: Key, now: Time) returns (acts: seq<Act>, p': System)
    requires k in p.sections && p.sections[k].Fresh?
    ensures Leads(cfg, p, acts, p', k) && p'.sections[k].Fresh?
    ensures HasStatus(p'.db, k, Allowed) && NoOpen(p'.db, k) && k !in p'.db.evidence
  {
    acts, p' := Call(cfg, p, [], p, k, DoAllow(now));
  }

  lemma DecideRun(cfg: Config, p: System, acts: seq<Act>, mid: System, k: Key, verdict: ReviewStatus, now: Time)
    returns (acts': seq<Act>, p': System)
    requires Leads(cfg, p, acts, mid, k) && mid.sections[k].Fresh? && !verdict.ReviewPending?
    ensures Leads(cfg, p, acts', p', k) && p'.sections[k].Ruled?
    ensures p'.db.rows == mid.db.rows && p'.db.evidence == mid.db.evidence && p'.db.nextJob == mid.db.nextJob
    ensures NoPendingReview(p'.db, k) && NoOpen(p'.db, k)
  {
    acts', p' := Call(cfg, p, acts, mid, k, DoDecide(verdict, now));
  }

  /** Lifted from its case, or released after the owner wrote: allowed, and none of its jobs can ever be claimed. */
  lemma AllowedCaseIsARun(cfg: Config, p: System, k: Key, now: Time) returns (acts: seq<Act>, p': System)
    requires k in p.sections && p.sections[k].Fresh?
    ensures Leads(cfg, p, acts, p', k)
    ensures HasStatus(p'.db, k, Allowed) && Owner.Unclaimable(p'.db, k) && k !in p'.db.evidence
  {
    acts, p' := AllowRun(cfg, p, k, now);
    Owner.NoOpenIsUnclaimable(p'.db, k);
  }

  lemma SpamSuppression(cfg: Config, p: System, acts: seq<Act>, mid: System, k: Key, reference: Blob,
                        control: Option<Blob>, now: Time)
    returns (acts': seq<Act>, p': System)
    requires Leads(cfg, p, acts, mid, k) && mid.sections[k].Ruled?
    requires NoPendingReview(mid.db, k) && NoOpen(mid.db, k)
    ensures Leads(cfg, p, acts', p', k) && HasStatus(p'.db, k, Suppressed) && p'.db.rows[k].suppressedUntil.None?
    ensures p'.sections[k] == Terminal(p'.db.rows[k].revision)
    ensures NoPendingReview(p'.db, k) && NoOpen(p'.db, k) && p'.db.nextJob == mid.db.nextJob
  {
    acts', p' := Call(cfg, p, acts, mid, k,
      DoSuppress("manual_permanent_suppression", None, Some(reference), control, now));
  }

  /** The sender's one open job, bound to the suppression that stands. */
  ghost predicate OnlyJob(db: Db, k: Key, id: nat, reference: Blob, now: Time) {
    k in db.rows && id in db.jobs &&
    db.jobs[id] == Job(k, "manual_permanent_suppression", reference, now, db.rows[k].revision, true, ActionPending,
                       now, None) &&
    forall i :: i in db.jobs && db.jobs[i].key == k && Open(db.jobs[i].status) ==> i == id
  }

  lemma SpamSchedule(cfg: Config, p: System, acts: seq<Act>, mid: System, k: Key, reference: Blob, now: Time)
    returns (acts': seq<Act>, p': System)
    requires Leads(cfg, p, acts, mid, k) && k in mid.db.rows
    requires mid.sections[k] == Terminal(mid.db.rows[k].revision)
    requires NoPendingReview(mid.db, k) && NoOpen(mid.db, k)
    ensures Leads(cfg, p, acts', p', k) && p'.db.rows == mid.db.rows && NoPendingReview(p'.db, k)
    ensures OnlyJob(p'.db, k, mid.db.nextJob, reference, now)
  {
    acts', p' := Call(cfg, p, acts, mid, k, DoSchedule("manual_permanent_suppression", reference, now, true, now));
  }

  lemma ArchiveRun(cfg: Config, p: System, acts: seq<Act>, mid: System, k: Key, now: Time)
    returns (acts': seq<Act>, p': System)
    requires Leads(cfg, p, acts, mid, k) && HasStatus(mid.db, k, Suppressed) && mid.db.rows[k].suppressedUntil.None?
    ensures Leads(cfg, p, acts', p', k)
    ensures p'.db == mid.db.(rows := mid.db.rows[k := mid.db.rows[k].(archivedAt := Some(now))])
  {
    acts', p' := Call(cfg, p, acts, mid, k, DoArchive(now));
  }

  /** The owner's verdict on a case: what the dashboard's contract says of each. */
  ghost predicate Ruling(db: Db, db': Db, k: Key, verdict: Owner.Verdict, reference: Blob, now: Time) {
    NoPendingReview(db', k) &&
    match verdict
    case IsLegitimate => HasStatus(db', k, Allowed) && Owner.Unclaimable(db', k) && k !in db'.evidence
    case IsSpam => Owner.SpamRecorded(db, db', k, reference, now)
    case IsNothing => db'.rows == db.rows && Owner.Unclaimable(db', k)
  }

  lemma VerdictIsARun(cfg: Config, p: System, k: Key, verdict: Owner.Verdict, reference: Blob, control: Option<Blob>,
                      now: Time)
    returns (acts: seq<Act>, p': System)
    requires k in p.sections && p.sections[k].Fresh?
    ensures Leads(cfg, p, acts, p', k) && Ruling(p.db, p'.db, k, verdict, reference, now)
  {
    match verdict {
      case IsLegitimate =>
        acts, p' := AllowRun(cfg, p, k, now);
        acts, p' := DecideRun(cfg, p, acts, p', k, ReviewStatus.Legitimate, now);
        Owner.NoOpenIsUnclaimable(p'.db, k);
      case IsSpam =>
        acts, p' := SpamRun(cfg, p, k, reference, control, now);
      case IsNothing =>
        acts, p' := DecideRun(cfg, p, [], p, k, ReviewStatus.Dismissed, now);
        Owner.NoOpenIsUnclaimable(p'.db, k);
    }
  }

  lemma SpamRun(cfg: Config, p: System, k: Key, reference: Blob, control: Option<Blob>, now: Time)
    returns (acts: seq<Act>, p': System)
    requires k in p.sections && p.sections[k].Fresh?
    ensures Leads(cfg, p, acts, p', k)
    ensures Owner.SpamRecorded(p.db, p'.db, k, reference, now) && NoPendingReview(p'.db, k)
  {
    acts, p' := DecideRun(cfg, p, [], p, k, ReviewStatus.Spam, now);
    acts, p' := SpamSuppression(cfg, p, acts, p', k, reference, control, now);
    acts, p' := SpamSchedule(cfg, p, acts, p', k, reference, now);
    acts, p' := ArchiveRun(cfg, p, acts, p', k, now);
  }
}
