/** What a maintenance pass keeps: per table, in the table's own columns and in seconds. */
module Retention {
  import opened Base
  import opened Tables
  import opened StoreSpec
  import opened StoreLemmas
  import Campaign
  import Outbound

  // ---------------------------------------------------------------- logs

  predicate Kept(sender: Option<Key>, at: Time, cutoff: Time, gone: set<Key>) {
    at >= cutoff && !(sender.Some? && sender.value in gone)
  }

  /** Every row inside the window stays as often as it was there, unless its sender is gone; no other stays. */
  ghost predicate LogKept(log: seq<LogRow>, log': seq<LogRow>, cutoff: Time, gone: set<Key>) {
    forall row :: multiset(log')[row] == if Kept(Some(row.sender), row.at, cutoff, gone) then multiset(log)[row] else 0
  }

  ghost predicate OutboundKept(log: seq<OutboundRow>, log': seq<OutboundRow>, cutoff: Time, gone: set<Key>) {
    forall row :: multiset(log')[row] == if Kept(row.sender, row.at, cutoff, gone) then multiset(log)[row] else 0
  }

  ghost predicate MessagesKept(messages: MessageTable, messages': MessageTable, cutoff: Time, gone: set<Key>) {
    (forall p :: p in messages' <==> p in messages && messages[p] >= cutoff && p.0 !in gone) &&
    (forall p :: p in messages' ==> messages'[p] == messages[p])
  }

  ghost predicate SightingsKept(sightings: map<(string, Key), Time>, sightings': map<(string, Key), Time>, cutoff: Time,
                                gone: set<Key>)
  {
    (forall p :: p in sightings' <==> p in sightings && sightings[p] >= cutoff && p.1 !in gone) &&
    (forall p :: p in sightings' ==> sightings'[p] == sightings[p])
  }

  lemma BagSnoc<T>(log: seq<T>, row: T)
    ensures multiset(log + [row]) == multiset(log) + multiset{row}
  {}

  lemma {:induction false} LogSince(log: seq<LogRow>, cutoff: Time)
    ensures LogKept(log, Since(log, cutoff), cutoff, {})
    decreases |log|
  {
    if log != [] {
      var rest, last := log[..|log| - 1], log[|log| - 1];
      LogSince(rest, cutoff);
      assert log == rest + [last];
      BagSnoc(rest, last);
      BagSnoc(Since(rest, cutoff), last);
    }
  }

  lemma {:induction false} LogWithout(log: seq<LogRow>, gone: set<Key>)
    ensures forall row :: multiset(Without(log, gone))[row] == if row.sender in gone then 0 else multiset(log)[row]
    decreases |log|
  {
    if log != [] {
      var rest, last := log[..|log| - 1], log[|log| - 1];
      LogWithout(rest, gone);
      assert log == rest + [last];
      BagSnoc(rest, last);
      BagSnoc(Without(rest, gone), last);
    }
  }

  lemma LogPruned(log: seq<LogRow>, cutoff: Time, gone: set<Key>)
    ensures LogKept(log, Without(Since(log, cutoff), gone), cutoff, gone)
  {
    LogSince(log, cutoff);
    LogWithout(Since(log, cutoff), gone);
  }

  lemma {:induction false} OutboundSinceKept(log: seq<OutboundRow>, cutoff: Time)
    ensures OutboundKept(log, OutboundSince(log, cutoff), cutoff, {})
    decreases |log|
  {
    if log != [] {
      var rest, last := log[..|log| - 1], log[|log| - 1];
      OutboundSinceKept(rest, cutoff);
      assert log == rest + [last];
      BagSnoc(rest, last);
      BagSnoc(OutboundSince(rest, cutoff), last);
    }
  }

  lemma {:induction false} OutboundWithoutKept(log: seq<OutboundRow>, gone: set<Key>)
    ensures forall row ::
      multiset(OutboundWithout(log, gone))[row] == if SentTo(row, gone) then 0 else multiset(log)[row]
    decreases |log|
  {
    if log != [] {
      var rest, last := log[..|log| - 1], log[|log| - 1];
      OutboundWithoutKept(rest, gone);
      assert log == rest + [last];
      BagSnoc(rest, last);
      BagSnoc(OutboundWithout(rest, gone), last);
    }
  }

  lemma OutboundPruned(log: seq<OutboundRow>, cutoff: Time, gone: set<Key>)
    ensures OutboundKept(log, OutboundWithout(OutboundSince(log, cutoff), gone), cutoff, gone)
  {
    OutboundSinceKept(log, cutoff);
    OutboundWithoutKept(OutboundSince(log, cutoff), gone);
  }

  // ---------------------------------------------------------------- who is released, who is gone

  predicate Permits(permitted: Option<set<Key>>, k: Key) {
    permitted.Some? ==> k in permitted.value
  }

  /** A temporary suppression whose time is up. */
  predicate TimeIsUp(row: Row, now: Time) {
    row.status.Suppressed? && row.suppressedUntil.Some? && row.suppressedUntil.value <= now
  }

  /** An archived permanent suppression past its retention, with no work that is pending or failed. */
  ghost predicate Outlived(db: Db, k: Key, days: nat, now: Time) {
    k in db.rows && db.rows[k].status.Suppressed? && db.rows[k].suppressedUntil.None? &&
    db.rows[k].archivedAt.Some? && db.rows[k].archivedAt.value <= now - days * 86400 &&
    forall i :: i in db.jobs && db.jobs[i].key == k ==> db.jobs[i].status.Cancelled? || db.jobs[i].status.Completed?
  }

  /** The senders that a pass gives back, and those it erases. */
  function Released(db: Db, permitted: Option<set<Key>>, now: Time): set<Key> {
    set k | k in db.rows && TimeIsUp(db.rows[k], now) && Permits(permitted, k)
  }

  ghost function Gone(db: Db, archivedDays: Option<nat>, permitted: Option<set<Key>>, now: Time): set<Key> {
    set k | k in db.rows && archivedDays.Some? && Outlived(db, k, archivedDays.value, now) && Permits(permitted, k)
  }

  lemma ReleasedAre(db: Db, permitted: Option<set<Key>>, now: Time)
    ensures ExpiredKeys(db, permitted, now) == Released(db, permitted, now)
  {}

  /** Releasing and dropping old rows leaves the open work of every other restricted sender as it was. */
  lemma SameOpenWork(db: Db, days: nat, permitted: Option<set<Key>>, now: Time, k: Key)
    requires k !in Released(db, permitted, now) && k in db.rows && Restricted(db.rows[k].status)
    ensures HasOpenJob(Refresh(db, days, permitted, now).jobs, k) <==> HasOpenJob(db.jobs, k)
  {
    ReleasedAre(db, permitted, now);
    var released := ReleaseJobs(db.jobs, Released(db, permitted, now), now);
    var kept := Refresh(db, days, permitted, now).jobs;
    if i :| i in db.jobs && db.jobs[i].key == k && Open(db.jobs[i].status) {
      assert released[i] == db.jobs[i];
      assert kept[i] == db.jobs[i];
    }
    if i :| i in kept && kept[i].key == k && Open(kept[i].status) {
      assert db.jobs[i] == kept[i];
    }
  }

  lemma GoneAre(db: Db, days: nat, archivedDays: Option<nat>, permitted: Option<set<Key>>, now: Time)
    ensures Forgets(Refresh(db, days, permitted, now), archivedDays, permitted, now) ==
            Gone(db, archivedDays, permitted, now)
  {
    var kept := Refresh(db, days, permitted, now);
    forall k: Key
      ensures k in Forgets(kept, archivedDays, permitted, now) <==> k in Gone(db, archivedDays, permitted, now)
    {
      ReleasedAre(db, permitted, now);
      RefreshedRow(db, days, permitted, now, k);
      if k in db.rows && Restricted(db.rows[k].status) && k !in Released(db, permitted, now) {
        SameOpenWork(db, days, permitted, now, k);
        OpenWorkMeans(db, k);
      }
    }
  }

  lemma OpenWorkMeans(db: Db, k: Key)
    ensures HasOpenJob(db.jobs, k) <==>
      !forall i :: i in db.jobs && db.jobs[i].key == k ==> db.jobs[i].status.Cancelled? || db.jobs[i].status.Completed?
  {}

  lemma RefreshedRow(db: Db, days: nat, permitted: Option<set<Key>>, now: Time, k: Key)
    ensures var kept := Refresh(db, days, permitted, now);
      (k in kept.rows <==> k in db.rows) &&
      (k in db.rows ==>
        kept.rows[k] == if k in Released(db, permitted, now) then ReleasedRow(db.rows[k], now) else db.rows[k])
  {
    ReleasedAre(db, permitted, now);
  }

  // ---------------------------------------------------------------- the pass, table by table

  lemma MessagesPruned(messages: MessageTable, cutoff: Time, gone: set<Key>)
    ensures MessagesKept(messages, MessagesWithout(MessagesSince(messages, cutoff), gone), cutoff, gone)
  {}

  lemma SightingsPruned(sightings: map<(string, Key), Time>, cutoff: Time, gone: set<Key>)
    ensures SightingsKept(sightings, CampaignWithout(CampaignSince(sightings, cutoff), gone), cutoff, gone)
  {}

  lemma PrunedEvents(db: Db, days: nat, archivedDays: Option<nat>, permitted: Option<set<Key>>, now: Time,
                     gone: set<Key>, recent: Events)
    requires gone == Gone(db, archivedDays, permitted, now) && recent == FreshEvents(db.events, now, now - days * DAY)
    ensures Prune(db, days, archivedDays, permitted, now).events == NoEventsOf(recent, gone)
  {
    GoneAre(db, days, archivedDays, permitted, now);
  }

  lemma LogsPruned(events: Events, kept: Events, cutoff: Time, gone: set<Key>, now: Time)
    requires kept == NoEventsOf(FreshEvents(events, now, cutoff), gone)
    ensures LogKept(events.audits, kept.audits, cutoff, gone) && LogKept(events.decisions, kept.decisions, cutoff, gone)
  {
    LogPruned(events.audits, cutoff, gone);
    LogPruned(events.decisions, cutoff, gone);
  }

  lemma NumbersPruned(events: Events, kept: Events, cutoff: Time, gone: set<Key>, now: Time)
    requires kept == NoEventsOf(FreshEvents(events, now, cutoff), gone)
    ensures MessagesKept(events.processed, kept.processed, cutoff, gone)
    ensures MessagesKept(events.automated, kept.automated, cutoff, gone)
    ensures SightingsKept(events.campaign, kept.campaign, now - 604800, gone)
  {
    MessagesPruned(events.processed, cutoff, gone);
    MessagesPruned(events.automated, cutoff, gone);
    SightingsPruned(events.campaign, now - 604800, gone);
  }

  lemma HoursPruned(events: Events, kept: Events, cutoff: Time, gone: set<Key>, now: Time)
    requires kept == NoEventsOf(FreshEvents(events, now, cutoff), gone)
    ensures LogKept(events.links, kept.links, now - 3600, gone)
    ensures OutboundKept(events.outbound, kept.outbound, now - 3600, gone)
  {
    LogPruned(events.links, now - 3600, gone);
    OutboundPruned(events.outbound, now - 3600, gone);
  }

  /** The audit and decision logs keep exactly the configured days, save for whoever is erased. */
  lemma PruneKeepsLogs(db: Db, days: nat, archivedDays: Option<nat>, permitted: Option<set<Key>>, now: Time,
                       gone: set<Key>)
    requires gone == Gone(db, archivedDays, permitted, now)
    ensures var pruned := Prune(db, days, archivedDays, permitted, now).events;
      LogKept(db.events.audits, pruned.audits, now - days * 86400, gone) &&
      LogKept(db.events.decisions, pruned.decisions, now - days * 86400, gone)
  {
    var recent := FreshEvents(db.events, now, now - days * 86400);
    PrunedEvents(db, days, archivedDays, permitted, now, gone, recent);
    LogsPruned(db.events, NoEventsOf(recent, gone), now - days * 86400, gone, now);
  }

  /** So do the message numbers; campaign sightings stay for seven days. */
  lemma PruneKeepsNumbers(db: Db, days: nat, archivedDays: Option<nat>, permitted: Option<set<Key>>, now: Time,
                          gone: set<Key>)
    requires gone == Gone(db, archivedDays, permitted, now)
    ensures var pruned := Prune(db, days, archivedDays, permitted, now).events;
      MessagesKept(db.events.processed, pruned.processed, now - days * 86400, gone) &&
      MessagesKept(db.events.automated, pruned.automated, now - days * 86400, gone) &&
      SightingsKept(db.events.campaign, pruned.campaign, now - 604800, gone)
  {
    var recent := FreshEvents(db.events, now, now - days * 86400);
    PrunedEvents(db, days, archivedDays, permitted, now, gone, recent);
    NumbersPruned(db.events, NoEventsOf(recent, gone), now - days * 86400, gone, now);
  }

  /** Links and messages sent stay for an hour. */
  lemma PruneKeepsTheHour(db: Db, days: nat, archivedDays: Option<nat>, permitted: Option<set<Key>>, now: Time,
                          gone: set<Key>)
    requires gone == Gone(db, archivedDays, permitted, now)
    ensures var pruned := Prune(db, days, archivedDays, permitted, now).events;
      LogKept(db.events.links, pruned.links, now - 3600, gone) &&
      OutboundKept(db.events.outbound, pruned.outbound, now - 3600, gone)
  {
    var recent := FreshEvents(db.events, now, now - days * 86400);
    PrunedEvents(db, days, archivedDays, permitted, now, gone, recent);
    HoursPruned(db.events, NoEventsOf(recent, gone), now - days * 86400, gone, now);
  }

  ghost predicate ReviewStays(review: Review, days: nat, now: Time) {
    if review.status.ReviewPending? then review.expiresAt > now
    else review.reviewedAt.None? || review.reviewedAt.value >= now - days * 86400
  }

  /** A review stays exactly if its sender is neither given back nor erased, and it is pending and not expired, or
      decided within the retention. */
  lemma PruneKeepsReviews(db: Db, days: nat, archivedDays: Option<nat>, permitted: Option<set<Key>>, now: Time, i: nat)
    ensures var db' := Prune(db, days, archivedDays, permitted, now);
      (i in db'.reviews <==>
        i in db.reviews && db.reviews[i].key !in Released(db, permitted, now) &&
        db.reviews[i].key !in Gone(db, archivedDays, permitted, now) && ReviewStays(db.reviews[i], days, now)) &&
      (i in db'.reviews ==> db'.reviews[i] == db.reviews[i])
  {
    GoneAre(db, days, archivedDays, permitted, now);
    ReleasedAre(db, permitted, now);
  }

  lemma PruneKeepsEvidence(db: Db, days: nat, archivedDays: Option<nat>, permitted: Option<set<Key>>, now: Time, k: Key)
    ensures var db', done := Prune(db, days, archivedDays, permitted, now),
                             Released(db, permitted, now) + Gone(db, archivedDays, permitted, now);
      (k in db'.evidence <==> k in db.evidence && k !in done && db.evidence[k].expiresAt > now) &&
      (k in db'.evidence ==> db'.evidence[k] == db.evidence[k]) &&
      (k in db'.snapshots <==> k in db.snapshots && k !in done) &&
      (k in db'.snapshots ==> db'.snapshots[k] == db.snapshots[k])
  {
    GoneAre(db, days, archivedDays, permitted, now);
    ReleasedAre(db, permitted, now);
  }

  /** A job that was finished before the retention, and is not the failed one of a sender still restricted. */
  ghost predicate Outdated(db: Db, job: Job, days: nat, now: Time) {
    job.finishedAt.Some? && job.finishedAt.value < now - days * 86400 && !job.status.ActionPending? &&
    (job.status.Failed? ==> !(job.key in db.rows && (db.rows[job.key].status.Quarantined? ||
                                                      db.rows[job.key].status.Suppressed?)))
  }

  /** A job stays exactly if its sender is not erased and it is not outdated; the open work of a sender given back is
      cancelled, with its reference erased, and everybody else's stays as it is. */
  lemma PruneKeepsJobs(db: Db, days: nat, archivedDays: Option<nat>, permitted: Option<set<Key>>, now: Time, i: nat)
    requires i in db.jobs
    ensures var db', job := Prune(db, days, archivedDays, permitted, now), db.jobs[i];
      if job.key in Gone(db, archivedDays, permitted, now) then i !in db'.jobs
      else if job.key in Released(db, permitted, now) && (job.status.ActionPending? || job.status.Failed?) then
        i in db'.jobs && db'.jobs[i] == job.(status := Cancelled, finishedAt := Some(now), reference := [])
      else
        (i in db'.jobs <==> !Outdated(db, job, days, now)) && (i in db'.jobs ==> db'.jobs[i] == job)
  {
    GoneAre(db, days, archivedDays, permitted, now);
    ReleasedAre(db, permitted, now);
    RefreshedRow(db, days, permitted, now, db.jobs[i].key);
    var released := ReleaseJobs(db.jobs, Released(db, permitted, now), now);
    assert i in released;
  }

  /** A row is erased, given back, or left as it is. */
  lemma PruneKeepsRows(db: Db, days: nat, archivedDays: Option<nat>, permitted: Option<set<Key>>, now: Time, k: Key)
    requires k in db.rows
    ensures var db', row := Prune(db, days, archivedDays, permitted, now), db.rows[k];
      (k in db'.rows <==> k !in Gone(db, archivedDays, permitted, now)) &&
      (k in db'.rows ==>
        db'.rows[k] == if k in Released(db, permitted, now)
          then row.(status := Unknown, suppressionReason := None, suppressedUntil := None, actionReference := None,
                    restrictionReference := None, archivedAt := None, revision := row.revision + 1, updatedAt := now)
          else row)
  {
    GoneAre(db, days, archivedDays, permitted, now);
    RefreshedRow(db, days, permitted, now, k);
  }

  // ---------------------------------------------------------------- what later claims and sightings see

  /** As long as nobody is erased, a pass changes no later answer of the outbound quota. */
  lemma PruneKeepsAnswers(db: Db, days: nat, archivedDays: Option<nat>, permitted: Option<set<Key>>, now: Time,
                          q: Outbound.Quota, k: Key, challenge: bool, later: Time)
    requires Gone(db, archivedDays, permitted, now) == {} && later >= now
    ensures var pruned := Prune(db, days, archivedDays, permitted, now).events.outbound;
      Outbound.Free(q, OutboundSince(pruned, later - HOUR), k, challenge, later) ==
      Outbound.Free(q, OutboundSince(db.events.outbound, later - HOUR), k, challenge, later)
  {
    GoneAre(db, days, archivedDays, permitted, now);
    OutboundWithoutNobody(OutboundSince(db.events.outbound, now - 3600));
    Outbound.SinceTwice(db.events.outbound, now - 3600, later - HOUR);
  }

  /** Nor what a later sighting finds of other senders. */
  lemma PruneKeepsCampaigns(db: Db, days: nat, archivedDays: Option<nat>, permitted: Option<set<Key>>, now: Time,
                            sight: Campaign.Sight)
    requires Gone(db, archivedDays, permitted, now) == {} && sight.at >= now
    ensures Campaign.ShownByAnother(Prune(db, days, archivedDays, permitted, now).events.campaign, sight) <==>
            Campaign.ShownByAnother(db.events.campaign, sight)
  {
    PruneKeepsNumbers(db, days, archivedDays, permitted, now, {});
    var pruned := Prune(db, days, archivedDays, permitted, now).events.campaign;
    assert SightingsKept(db.events.campaign, pruned, now - 604800, {});
    if p :| p in db.events.campaign && p.0 == sight.fingerprint && p.1 != sight.sender &&
            db.events.campaign[p] >= sight.at - CAMPAIGN_WINDOW {
      assert p in pruned;
    }
  }
}
