/** Handling a message is a run of the protocol: from any system in which the sender's lock was just taken, the holder's
    store calls, the log writes and a command in between are enabled one after the other, and where they lead is what
    the handler's contract says. */
module ServiceRuns {
  import opened Base
  import opened Tables
  import opened StoreSpec
  import opened Telegram
  import opened ServiceSpec
  import opened Service
  import opened Protocol
  import opened LockSections
  import StoreLemmas

  // ---------------------------------------------------------------- runs of one holder

  /** Only the holder's calls, writes to the logs and the evidence, and commands on this sender. */
  predicate Allowable(a: Act, k: Key) {
    (a.Do? && a.k == k) || a.Unrelated? || ((a.CommandAllow? || a.CommandRevoke?) && a.k == k)
  }

  /** These acts lead from one system to the other while the sender's lock is held. */
  ghost predicate Leads(cfg: Config, p: System, acts: seq<Act>, p': System, k: Key) {
    Steps(cfg, p, acts, p') && k in p'.sections && forall i :: 0 <= i < |acts| ==> Allowable(acts[i], k)
  }

  lemma More(cfg: Config, p: System, acts: seq<Act>, mid: System, k: Key, a: Act)
    returns (acts': seq<Act>, p': System)
    requires Leads(cfg, p, acts, mid, k) && Enabled(cfg, mid, a) && Allowable(a, k)
    ensures Leads(cfg, p, acts', p', k) && p' == Next(cfg, mid, a)
  {
    acts', p' := acts + [a], Next(cfg, mid, a);
    assert [a][1..] == [];
    assert Steps(cfg, mid, [a], p');
    StepsTrans(cfg, p, acts, mid, [a], p');
  }

  lemma Join(cfg: Config, p: System, acts: seq<Act>, mid: System, more: seq<Act>, p': System, k: Key)
    requires Leads(cfg, p, acts, mid, k) && Leads(cfg, mid, more, p', k)
    ensures Leads(cfg, p, acts + more, p', k)
  {
    StepsTrans(cfg, p, acts, mid, more, p');
  }

  /** One more store call of the holder. */
  lemma Call(cfg: Config, p: System, acts: seq<Act>, mid: System, k: Key, op: Op)
    returns (acts': seq<Act>, p': System)
    requires Leads(cfg, p, acts, mid, k) && OpEnabled(cfg, mid.db, k, mid.sections[k], op)
    ensures Leads(cfg, p, acts', p', k)
    ensures p'.db == OpDb(mid.db, k, mid.sections[k], op)
    ensures p'.sections[k] == OpSection(cfg, mid.db, k, mid.sections[k], op)
  {
    acts', p' := More(cfg, p, acts, mid, k, Do(k, op));
  }

  /** One more write to the logs and the evidence. */
  lemma Log(cfg: Config, p: System, acts: seq<Act>, mid: System, k: Key, evidence: map<Key, Evidence>, events: Events)
    returns (acts': seq<Act>, p': System)
    requires Leads(cfg, p, acts, mid, k)
    ensures Leads(cfg, p, acts', p', k)
    ensures p'.db == mid.db.(evidence := evidence, events := events) && p'.sections == mid.sections
  {
    acts', p' := More(cfg, p, acts, mid, k, Unrelated(evidence, mid.db.snapshots, events));
  }

  /** A command, where the command line accepts one. */
  lemma Arrive(cfg: Config, p: System, acts: seq<Act>, mid: System, k: Key, race: Race)
    returns (acts': seq<Act>, p': System)
    requires Leads(cfg, p, acts, mid, k)
    ensures Leads(cfg, p, acts', p', k)
    ensures p'.db == Landed(mid.db, k, race) && p'.sections == mid.sections
  {
    acts', p' := acts, mid;
    if !DashboardOnly(StatusOf(mid.db, k)) {
      if race.OwnerAllows? {
        acts', p' := More(cfg, p, acts, mid, k, CommandAllow(k, race.at));
      } else if race.OwnerRevokes? {
        acts', p' := More(cfg, p, acts, mid, k, CommandRevoke(k, race.at));
      }
    }
  }

  /** The owner's queue gets the case, if there is a reference. */
  lemma AskOwner(cfg: Config, p: System, acts: seq<Act>, mid: System, k: Key, reference: Option<Blob>, reason: string,
                 now: Time)
    returns (acts': seq<Act>, p': System)
    requires Leads(cfg, p, acts, mid, k)
    ensures Leads(cfg, p, acts', p', k)
    ensures p'.db.rows == mid.db.rows && p'.db.jobs == mid.db.jobs && p'.db.evidence == mid.db.evidence
    ensures reference.Some? ==> HasPendingReview(p'.db.reviews, k)
  {
    acts', p' := acts, mid;
    if reference.Some? {
      StoreLemmas.EnqueuedIsPending(mid.db, k, reference.value, reason, now, now);
      acts', p' := Call(cfg, p, acts, mid, k, DoEnqueue(reference.value, reason, now, now));
    }
  }

  ghost predicate Configured(cfg: Config, s: GatekeeperService) {
    cfg == Config(s.testKey, s.maxAttempts)
  }

  /** Nothing lands while the calls of a delivery are awaited; the command line would refuse it by then. */
  predicate Undisturbed(w: Weather) {
    w.afterSend.Nobody? && w.afterArchive.Nobody? && w.afterRestore.Nobody?
  }

  // ---------------------------------------------------------------- what the row read settles

  lemma SettledRun(cfg: Config, s: GatekeeperService, p: System, k: Key, row: Row,
                   deletions: map<nat, Time>, message: Incoming, now: Time)
    returns (acts': seq<Act>, p': System, deletions': map<nat, Time>, outcome: Outcome)
    requires Configured(cfg, s) && k in p.sections && p.sections[k] == Viewed(row)
    requires ReadBefore(p.db, k, row) && s.Settles(row, message, s.IsTest(k))
    ensures Leads(cfg, p, acts', p', k)
    ensures s.Settled(row, p.db, p'.db, deletions, deletions', k, message, outcome, now)
  {
    acts', p', deletions' := [], p, deletions;
    if row.status.Suppressed? && !s.IsTest(k) {
      var reference := OrElse(message.reference, row.actionReference);
      if p.db.mode.Monitor? {
        outcome := WouldDeleteSuppressed;
      } else if reference.None? {
        outcome := FailSafe;
      } else {
        outcome, deletions' := Suppressing, deletions[p.db.nextJob := now];
        acts', p' := Call(cfg, p, [], p, k, DoSchedule(s.SuppressionName(row), reference.value, now, false, now));
      }
    } else if s.LetsIn(row, message, s.IsTest(k)) {
      outcome := LetThrough;
      acts', p' := Call(cfg, p, [], p, k, DoAllow(now));
    } else {
      outcome := if row.status.Quarantined? then AlreadyQuarantined
                 else if ChallengeStarting(row.status) then StillStarting else LetThrough;
    }
  }

  // ---------------------------------------------------------------- a restriction and its deletion

  /** The deletion is bound to the restriction just written or read again. */
  lemma ScheduleRun(cfg: Config, p: System, acts: seq<Act>, mid: System, k: Key, deletions: map<nat, Time>,
                    reason: string, reference: Blob, free: bool, at: Time, now: Time)
    returns (acts': seq<Act>, p': System)
    requires Leads(cfg, p, acts, mid, k) && k in mid.db.rows && Restricted(mid.db.rows[k].status)
    requires mid.sections[k] == Terminal(mid.db.rows[k].revision)
    ensures Leads(cfg, p, acts', p', k) && p'.db.rows == mid.db.rows
    ensures DeletionSet(p'.db, deletions, deletions[mid.db.nextJob := at], k, mid.db.nextJob, reason, reference, free,
                        at, now)
  {
    acts', p' := Call(cfg, p, acts, mid, k, DoSchedule(reason, reference, at, free, now));
  }

  lemma SuppressRun(cfg: Config, p: System, acts: seq<Act>, mid: System, k: Key, reason: string, until: Option<Time>,
                    reference: Blob, control: Option<Blob>, now: Time)
    returns (acts': seq<Act>, p': System)
    requires Leads(cfg, p, acts, mid, k)
    requires OpEnabled(cfg, mid.db, k, mid.sections[k], DoSuppress("", None, None, None, 0))
    ensures Leads(cfg, p, acts', p', k) && HasStatus(p'.db, k, Suppressed)
    ensures p'.sections[k] == Terminal(p'.db.rows[k].revision)
    ensures p'.db.rows[k].suppressedUntil == until && p'.db.rows[k].suppressionReason == Some(reason)
    ensures p'.db.nextJob == mid.db.nextJob
  {
    acts', p' := Call(cfg, p, acts, mid, k, DoSuppress(reason, until, Some(reference), control, now));
  }

  lemma QuarantineRun(cfg: Config, p: System, acts: seq<Act>, mid: System, k: Key, control: Option<Blob>, now: Time)
    returns (acts': seq<Act>, p': System)
    requires Leads(cfg, p, acts, mid, k) && OpEnabled(cfg, mid.db, k, mid.sections[k], DoQuarantine(None, 0))
    ensures Leads(cfg, p, acts', p', k) && HasStatus(p'.db, k, Quarantined)
    ensures p'.sections[k] == Terminal(p'.db.rows[k].revision)
    ensures p'.db.rows[k].suppressedUntil.None? && p'.db.rows[k].suppressionReason.None?
    ensures p'.db.nextJob == mid.db.nextJob && p'.db.jobs == mid.db.jobs
  {
    acts', p' := Call(cfg, p, acts, mid, k, DoQuarantine(control, now));
  }

  lemma ExpireRun(cfg: Config, s: GatekeeperService, p: System, k: Key, row: Row,
                  now: Time)
    returns (acts': seq<Act>, p': System)
    requires k in p.sections && p.sections[k] == Viewed(row)
    requires HasStatus(p.db, k, Challenged) && p.db.rows[k] == row && row.expiresAt.Some?
    ensures Leads(cfg, p, acts', p', k) && p'.sections[k] == TimedOut
    ensures s.SuppressedByTimeout(p'.db, k, row, now) && p'.db.jobs == p.db.jobs && p'.db.nextJob == p.db.nextJob
  {
    acts', p' := Call(cfg, p, [], p, k,
      DoExpire(row.expiresAt.value, TimeoutPenalty(row.profile), s.RestrictionReference(row.actionReference), now));
  }

  lemma CountRun(cfg: Config, p: System, k: Key, row: Row, now: Time)
    returns (acts': seq<Act>, p': System)
    requires k in p.sections && p.sections[k] == Viewed(row)
    requires HasStatus(p.db, k, Challenged) && p.db.rows[k] == row
    ensures Leads(cfg, p, acts', p', k) && p'.db.jobs == p.db.jobs && p'.db.nextJob == p.db.nextJob
    ensures p'.db.rows == p.db.rows[k := row.(attempts := row.attempts + 1, updatedAt := now)]
    ensures row.attempts + 1 >= Limit(cfg, row.profile) ==> p'.sections[k] == Section.Exhausted
  {
    acts', p' := Call(cfg, p, [], p, k, DoIncrement(now));
  }

  // ---------------------------------------------------------------- a reply

  lemma LateRun(cfg: Config, s: GatekeeperService, p: System, k: Key, row: Row,
                deletions: map<nat, Time>, fallback: Option<Blob>, notice: Sending, now: Time)
    returns (acts': seq<Act>, p': System, deletions': map<nat, Time>)
    requires Configured(cfg, s) && k in p.sections && p.sections[k] == Viewed(row)
    requires HasStatus(p.db, k, Challenged) && p.db.rows[k] == row && row.expiresAt.Some?
    ensures Leads(cfg, p, acts', p', k)
    ensures s.TimedOut(p.db, p'.db, deletions, deletions', k, fallback, notice, now)
  {
    deletions' := deletions;
    acts', p' := ExpireRun(cfg, s, p, k, row, now);
    if !s.IsTest(k) {
      var reference := OrElse(row.actionReference, fallback);
      acts', p' := Call(cfg, p, acts', p', k, Read);
      if s.Told(p.db, k, notice, now) && reference.Some? {
        deletions' := deletions[p.db.nextJob := now + DELETE_DELAY];
        acts', p' := ScheduleRun(cfg, p, acts', p', k, deletions, "challenge_timeout", reference.value, false,
          now + DELETE_DELAY, now);
      } else {
        acts', p' := QuarantineRun(cfg, p, acts', p', k, s.RestrictionReference(reference), now);
      }
    }
  }

  lemma ExhaustedRun(cfg: Config, s: GatekeeperService, p: System, k: Key, row: Row,
                     deletions: map<nat, Time>, reference: Option<Blob>, notice: Sending, now: Time)
    returns (acts': seq<Act>, p': System, deletions': map<nat, Time>, outcome: Outcome)
    requires Configured(cfg, s) && k in p.sections && p.sections[k] == Viewed(row)
    requires HasStatus(p.db, k, Challenged) && p.db.rows[k] == row && row.attempts + 1 >= s.LimitOf(row)
    ensures Leads(cfg, p, acts', p', k)
    ensures s.Exhausted(p.db, p'.db, deletions, deletions', k, reference, outcome, notice, now)
  {
    deletions' := deletions;
    var test := s.IsTest(k);
    acts', p' := CountRun(cfg, p, k, row, now);
    if s.Told(p.db, k, notice, now) && reference.Some? {
      outcome, deletions' :=
        if test then Quarantining else Suppressing, deletions[p.db.nextJob := now + DELETE_DELAY];
      if test {
        acts', p' := QuarantineRun(cfg, p, acts', p', k, None, now);
      } else {
        acts', p' := SuppressRun(cfg, p, acts', p', k, "attempts_exhausted", Some(now + FAILED_SUPPRESSION),
          reference.value, s.RestrictionReference(reference), now);
      }
      acts', p' := ScheduleRun(cfg, p, acts', p', k, deletions, "attempts_exhausted", reference.value, test,
        now + DELETE_DELAY, now);
    } else {
      outcome := Quarantining;
      acts', p' := QuarantineRun(cfg, p, acts', p', k, None, now);
    }
  }

  lemma UnusableRun(cfg: Config, s: GatekeeperService, p: System, k: Key, row: Row,
                    notice: Sending, now: Time)
    returns (acts': seq<Act>, p': System)
    requires k in p.sections && p.sections[k] == Viewed(row)
    requires HasStatus(p.db, k, Challenged) && p.db.rows[k] == row
    ensures Leads(cfg, p, acts', p', k) && p'.db.jobs == p.db.jobs
    ensures p'.db.rows ==
      p.db.rows[k := row.(guidanceSent := row.guidanceSent || s.Told(p.db, k, notice, now))]
  {
    acts', p' := [], p;
    if !row.guidanceSent && s.Told(p.db, k, notice, now) {
      acts', p' := Call(cfg, p, [], p, k, DoGuidance);
    }
  }

  lemma CorrectRun(cfg: Config, p: System, k: Key, row: Row, now: Time)
    returns (acts': seq<Act>, p': System)
    requires k in p.sections && p.sections[k] == Viewed(row) && row.status.Challenged?
    ensures Leads(cfg, p, acts', p', k) && p'.db == MarkProvisional(p.db, k, now)
  {
    acts', p' := Call(cfg, p, [], p, k, DoProvisional(now));
  }

  lemma JudgedRun(cfg: Config, s: GatekeeperService, p: System, k: Key, row: Row,
                  deletions: map<nat, Time>, message: Incoming, restores: nat -> bool, notice: Sending, now: Time)
    returns (acts': seq<Act>, p': System, deletions': map<nat, Time>, outcome: Outcome)
    requires Configured(cfg, s) && k in p.sections && p.sections[k] == Viewed(row)
    requires HasStatus(p.db, k, Challenged) && p.db.rows[k] == row
    ensures Leads(cfg, p, acts', p', k)
    ensures s.Judged(p.db, p'.db, deletions, deletions', k, message, outcome, restores, notice, now)
  {
    acts', p', deletions' := [], p, deletions;
    if message.answer.None? {
      outcome := Ignored;
      acts', p' := UnusableRun(cfg, s, p, k, row, notice, now);
    } else if Correct(row, message) {
      outcome := FailSafe;
      if Restores(restores) {
        outcome := Passed;
        acts', p' := CorrectRun(cfg, p, k, row, now);
      }
    } else if row.attempts + 1 < s.LimitOf(row) {
      outcome := Incorrect;
      acts', p' := CountRun(cfg, p, k, row, now);
    } else {
      acts', p', deletions', outcome := ExhaustedRun(cfg, s, p, k, row, deletions,
        OrElse(message.reference, row.actionReference), notice, now);
    }
  }

  lemma AnsweredRun(cfg: Config, s: GatekeeperService, p: System, k: Key, row: Row,
                    deletions: map<nat, Time>, message: Incoming, restores: nat -> bool, notice: Sending, now: Time)
    returns (acts': seq<Act>, p': System, deletions': map<nat, Time>, outcome: Outcome)
    requires Configured(cfg, s) && k in p.sections && p.sections[k] == Viewed(row)
    requires HasStatus(p.db, k, Challenged) && p.db.rows[k] == row && row.expiresAt.Some?
    ensures Leads(cfg, p, acts', p', k)
    ensures s.Answered(p.db, p'.db, deletions, deletions', k, message, outcome, restores, notice, now)
  {
    if Late(row, message) {
      outcome := Suppressing;
      acts', p', deletions' := LateRun(cfg, s, p, k, row, deletions, message.reference, notice, now);
    } else if BeforePrompt(row, message) {
      acts', p', deletions', outcome := [], p, deletions, Ignored;
    } else {
      acts', p', deletions', outcome :=
        JudgedRun(cfg, s, p, k, row, deletions, message, restores, notice, now);
    }
  }

  // ---------------------------------------------------------------- a question

  /** The prompt is written down, sent, and its message bound. */
  lemma DeliveredRun(cfg: Config, p: System, acts: seq<Act>, mid: System, k: Key, w: Weather, ttl: nat, now: Time)
    returns (acts': seq<Act>, p': System)
    requires Leads(cfg, p, acts, mid, k) && mid.sections[k] == Begun && HasStatus(mid.db, k, ChallengeIssuing)
    requires w.send.Delivered?
    ensures Leads(cfg, p, acts', p', k) && p'.sections[k] == Begun
    ensures LeftArchiving(p'.db, k, Some(w.send.id), Some(w.send.at + ttl))
    ensures SameQuestion(mid.db.rows[k], p'.db.rows[k])
  {
    acts', p' := Call(cfg, p, acts, mid, k, DoRefresh(w.send.at + ttl, w.send.at));
    acts', p' := Call(cfg, p, acts', p', k, DoBind(w.send.id, now));
  }

  lemma BegunRun(cfg: Config, p: System, k: Key, challenge: Challenge, reference: Option<Blob>, profile: Profile,
                 ttl: nat, now: Time)
    returns (acts': seq<Act>, p': System)
    requires k in p.sections && OpEnabled(cfg, p.db, k, p.sections[k], DoBegin("", "", 0, "", None, Standard, 0))
    ensures Leads(cfg, p, acts', p', k) && p'.sections[k] == Begun && HasStatus(p'.db, k, ChallengeIssuing)
    ensures Asks(p'.db.rows[k], challenge, reference, profile)
  {
    acts', p' := Call(cfg, p, [], p, k,
      DoBegin(challenge.id, challenge.digest, now + ttl, challenge.prompt, reference, profile, now));
  }

  /** A delivery ends with its activation, is given up, or is taken back. */
  lemma DeliveryRun(cfg: Config, p: System, k: Key, challenge: Challenge,
                    reference: Option<Blob>, profile: Profile, w: Weather, ttl: nat, now: Time)
    returns (acts': seq<Act>, p': System)
    requires k in p.sections && Undisturbed(w)
    requires OpEnabled(cfg, p.db, k, p.sections[k], DoBegin("", "", 0, "", None, Standard, 0))
    ensures Leads(cfg, p, acts', p', k) && DeliveryEnds(p'.db, k, w, ttl)
    ensures Succeeds(w) ==> k in p'.db.rows && Asks(p'.db.rows[k], challenge, reference, profile)
  {
    acts', p' := BegunRun(cfg, p, k, challenge, reference, profile, ttl, now);
    if w.send.Delivered? {
      acts', p' := DeliveredRun(cfg, p, acts', p', k, w, ttl, now);
    }
    if Succeeds(w) {
      acts', p' := Call(cfg, p, acts', p', k, DoActivate(now));
    } else if !GivesUp(w) {
      acts', p' := WithdrawnRun(cfg, p, acts', p', k, now);
    }
  }

  lemma WithdrawnRun(cfg: Config, p: System, acts: seq<Act>, mid: System, k: Key, now: Time)
    returns (acts': seq<Act>, p': System)
    requires Leads(cfg, p, acts, mid, k) && Delivering(mid.sections[k]) && Starting(mid.db, k)
    ensures Leads(cfg, p, acts', p', k) && Cleared(p'.db, k)
  {
    WithdrawnAs(mid.db, k, now);
    acts', p' := Call(cfg, p, acts, mid, k, DoReset(now));
  }

  lemma UnaskedRun(cfg: Config, s: GatekeeperService, p: System, k: Key, row: Row,
                   reference: Option<Blob>, w: Weather, now: Time)
    returns (acts': seq<Act>, p': System)
    requires k in p.sections && Undisturbed(w) && !s.SlotFree(p.db, k, true, now)
    requires p.sections[k] == Viewed(row) && (row.status.Unknown? || row.status.Provisional?)
    ensures Leads(cfg, p, acts', p', k) && s.Issued(p.db, p'.db, k, reference, w, now)
  {
    if w.archive.Done? {
      acts', p' := Call(cfg, p, [], p, k, DoQuarantine(s.RestrictionReference(reference), now));
      acts', p' := AskOwner(cfg, p, acts', p', k, reference, "challenge_unavailable", now);
    } else {
      acts', p' := Log(cfg, p, [], p, k, p.db.evidence - {k}, p.db.events);
      acts', p' := AskOwner(cfg, p, acts', p', k, reference, "challenge_unavailable_action_failed", now);
    }
  }

  // ---------------------------------------------------------------- a message

  lemma PermanentRun(cfg: Config, s: GatekeeperService, p: System, k: Key, row: Row,
                     deletions: map<nat, Time>, message: Incoming, decision: Decision, signals: bool, w: Weather,
                     notice: Sending, now: Time)
    returns (acts': seq<Act>, p': System, deletions': map<nat, Time>, outcome: Outcome)
    requires k in p.sections && p.sections[k] == Viewed(row) && decision.Permanent?
    requires row.status.Unknown? || row.status.Provisional? || row.status.Challenged?
    ensures Leads(cfg, p, acts', p', k)
    ensures s.Screened(row, p.db, p'.db, deletions, deletions', k, message, decision, signals, w, notice, now,
                       outcome)
  {
    deletions' := deletions;
    if p.db.mode.Monitor? {
      outcome := WouldDelete;
      acts', p' := AskOwner(cfg, p, [], p, k, message.reference, "would_delete", now);
    } else if message.reference.None? {
      outcome := FailSafe;
      acts', p' := Log(cfg, p, [], p, k, p.db.evidence - {k}, p.db.events);
    } else {
      outcome, deletions' := Suppressing, deletions[p.db.nextJob := now];
      acts', p' := SuppressRun(cfg, p, [], p, k, "permanent_suppression", None, message.reference.value,
        s.RestrictionReference(message.reference), now);
      acts', p' := ScheduleRun(cfg, p, acts', p', k, deletions, "permanent_suppression", message.reference.value, false,
        now, now);
    }
  }

  lemma IssuedRun(cfg: Config, s: GatekeeperService, p: System, k: Key, row: Row,
                  challenge: Challenge, reference: Option<Blob>, profile: Profile, w: Weather, now: Time)
    returns (acts': seq<Act>, p': System)
    requires Configured(cfg, s) && k in p.sections && Undisturbed(w) && p.sections[k] == Viewed(row)
    requires row.status.Unknown? || row.status.Provisional? || (s.IsTest(k) && row.status.Suppressed?)
    ensures Leads(cfg, p, acts', p', k) && s.Issued(p.db, p'.db, k, reference, w, now)
  {
    if s.SlotFree(p.db, k, true, now) {
      acts', p' := DeliveryRun(cfg, p, k, challenge, reference, profile, w, s.ttl, now);
    } else {
      acts', p' := UnaskedRun(cfg, s, p, k, row, reference, w, now);
    }
  }

  lemma ScreenedRun(cfg: Config, s: GatekeeperService, p: System, k: Key, row: Row,
                    deletions: map<nat, Time>, message: Incoming, decision: Decision, signals: bool,
                    challenge: Challenge, w: Weather, notice: Sending, now: Time)
    returns (acts': seq<Act>, p': System, deletions': map<nat, Time>, outcome: Outcome)
    requires Configured(cfg, s) && k in p.sections && p.sections[k] == Viewed(row)
    requires ReadBefore(p.db, k, row) && !s.Settles(row, message, s.IsTest(k)) && Undisturbed(w)
    requires row.status.Challenged? ==> row.expiresAt.Some? && k in p.db.rows
    requires s.IsTest(k) ==> decision.Ask?
    ensures Leads(cfg, p, acts', p', k)
    ensures s.Screened(row, p.db, p'.db, deletions, deletions', k, message, decision, signals, w, notice, now,
                       outcome)
  {
    if decision.Permanent? {
      acts', p', deletions', outcome :=
        PermanentRun(cfg, s, p, k, row, deletions, message, decision, signals, w, notice, now);
    } else if row.status.Provisional? && !signals {
      acts', p', deletions', outcome := [], p, deletions, Passed;
    } else if row.status.Challenged? {
      acts', p', deletions', outcome :=
        AnsweredRun(cfg, s, p, k, row, deletions, message, w.restores, notice, now);
    } else if p.db.mode.Monitor? && !s.IsTest(k) {
      deletions', outcome := deletions, WouldChallenge;
      acts', p' := AskOwner(cfg, p, [], p, k, message.reference, "would_challenge", now);
    } else {
      deletions', outcome := deletions, IssueOutcome(s.SlotFree(p.db, k, true, now), w);
      acts', p' := IssuedRun(cfg, s, p, k, row, challenge, message.reference, decision.profile, w, now);
    }
  }

  lemma OpenRun(cfg: Config, s: GatekeeperService, p: System, k: Key, row: Row,
                deletions: map<nat, Time>, message: Incoming, challenge: Challenge, w: Weather, notice: Sending,
                now: Time)
    returns (acts': seq<Act>, p': System, deletions': map<nat, Time>, outcome: Outcome)
    requires Configured(cfg, s) && k in p.sections && p.sections[k] == Viewed(row)
    requires ReadBefore(p.db, k, row) && !s.Settles(row, message, s.IsTest(k)) && Undisturbed(w)
    requires row.status.Challenged? ==> row.expiresAt.Some? && k in p.db.rows
    ensures Leads(cfg, p, acts', p', k)
    ensures s.HandledOpen(row, p.db, p'.db, deletions, deletions', k, message, w, notice, now, outcome)
  {
    if !w.screens {
      acts', p', deletions', outcome := [], p, deletions, FailSafe;
    } else {
      var signals := s.SignalsOf(p.db, k, message.facts, now);
      acts', p' := Log(cfg, p, [], p, k, p.db.evidence, s.LogsAfter(p.db, k, message.facts, now));
      var logged, screened := p', [];
      screened, p', deletions', outcome := ScreenedRun(cfg, s, logged, k, row, deletions, message,
        s.DecisionFor(k, signals), signals != [], challenge, w, notice, now);
      Join(cfg, p, acts', logged, screened, p', k);
      acts' := acts' + screened;
    }
  }

  /** A new message, a command before the first write included. */
  lemma NewMessageRun(cfg: Config, s: GatekeeperService, p: System, k: Key,
                      deletions: map<nat, Time>, message: Incoming, challenge: Challenge, w: Weather, notice: Sending,
                      now: Time)
    returns (acts': seq<Act>, p': System, deletions': map<nat, Time>, outcome: Outcome)
    requires Configured(cfg, s) && k in p.sections && p.sections[k].Fresh? && Undisturbed(w)
    requires HasStatus(p.db, k, Challenged) ==> p.db.rows[k].expiresAt.Some?
    ensures Leads(cfg, p, acts', p', k)
    ensures s.HandledNew(p.db, p'.db, deletions, deletions', k, message, w, notice, now, outcome)
  {
    var row := Tables.Sender(p.db, k);
    LandedAs(p.db, k, w.afterRead);
    acts', p' := Call(cfg, p, [], p, k, Read);
    acts', p' := Arrive(cfg, p, acts', p', k, w.afterRead);
    var seen, rest := p', [];
    if s.Settles(row, message, s.IsTest(k)) {
      rest, p', deletions', outcome := SettledRun(cfg, s, seen, k, row, deletions, message, now);
    } else {
      rest, p', deletions', outcome := OpenRun(cfg, s, seen, k, row, deletions, message, challenge, w, notice, now);
    }
    Join(cfg, p, acts', seen, rest, p', k);
    acts' := acts' + rest;
  }

  /** Old states end first. */
  lemma RenewalRun(cfg: Config, s: GatekeeperService, p: System, k: Key, now: Time)
    returns (acts': seq<Act>, p': System)
    requires Configured(cfg, s) && k in p.sections && p.sections[k].Fresh?
    ensures Leads(cfg, p, acts', p', k) && p'.sections[k].Fresh? && p'.db == s.Renewed(p.db, k, now)
  {
    acts', p' := [], p;
    var row := Tables.Sender(p.db, k);
    if s.IsTest(k) && row.status.Allowed? {
      acts', p' := Call(cfg, p, acts', p', k, Read);
      acts', p' := Call(cfg, p, acts', p', k, DoRevoke(now));
    } else if Releases(p.db, k, now) {
      acts', p' := Call(cfg, p, acts', p', k, DoRelease(now));
    } else if s.IsTest(k) && (row.status.Provisional? || row.status.Quarantined?) &&
              row.updatedAt + TEST_RESET_DELAY <= now {
      acts', p' := Call(cfg, p, acts', p', k, DoResetTest(row.updatedAt, now));
    }
  }

  /** A message from start to end, a command before its first write included: from every system in which the lock was
      just taken there is a run of the protocol to an end that the handler's contract allows. */
  lemma MessageIsARun(cfg: Config, s: GatekeeperService, p: System, k: Key, deletions: map<nat, Time>,
                      message: Incoming, challenge: Challenge, w: Weather, notice: Sending, now: Time)
    returns (acts: seq<Act>, p': System, deletions': map<nat, Time>, outcome: Outcome)
    requires Configured(cfg, s) && k in p.sections && p.sections[k].Fresh? && Undisturbed(w)
    requires HasStatus(p.db, k, Challenged) ==> p.db.rows[k].expiresAt.Some?
    ensures Leads(cfg, p, acts, p', k)
    ensures if (k, message.id) in p.db.events.processed then outcome.Duplicate? && p' == p && deletions' == deletions
            else s.HandledNew(s.Renewed(ClaimMessage(p.db, k, message.id, now), k, now), p'.db, deletions, deletions',
                              k, message, w, notice, now, outcome)
  {
    acts, p', deletions', outcome := [], p, deletions, Duplicate;
    if (k, message.id) !in p.db.events.processed {
      var claimed, renewed, renewing, rest;
      acts, claimed := Log(cfg, p, acts, p, k, p.db.evidence, ClaimMessage(p.db, k, message.id, now).events);
      renewing, renewed := RenewalRun(cfg, s, claimed, k, now);
      Join(cfg, p, acts, claimed, renewing, renewed, k);
      RenewedChallenge(s, claimed.db, k, now);
      rest, p', deletions', outcome :=
        NewMessageRun(cfg, s, renewed, k, deletions, message, challenge, w, notice, now);
      Join(cfg, p, acts + renewing, renewed, rest, p', k);
      acts := acts + renewing + rest;
    }
  }

  lemma RenewedChallenge(s: GatekeeperService, db: Db, k: Key, now: Time)
    ensures HasStatus(s.Renewed(db, k, now), k, Challenged) ==> s.Renewed(db, k, now) == db
  {}
}
