/** How bulk statements of StoreSpec split into one statement per sender or per table. */
module StoreLemmas {
  import opened Base
  import opened Tables
  import opened StoreSpec

  lemma {:induction false} WithoutTwice(log: seq<LogRow>, a: set<Key>, b: set<Key>)
    ensures Without(Without(log, a), b) == Without(log, a + b)
    decreases |log|
  {
    if log != [] {
      var rest, last := log[..|log| - 1], log[|log| - 1];
      WithoutTwice(rest, a, b);
      if last.sender in a {
        assert Without(log, a) == Without(rest, a);
        assert Without(log, a + b) == Without(rest, a + b);
      } else {
        var kept := Without(rest, a) + [last];
        assert kept[..|kept| - 1] == Without(rest, a);
      }
    }
  }

  lemma {:induction false} OutboundWithoutTwice(log: seq<OutboundRow>, a: set<Key>, b: set<Key>)
    ensures OutboundWithout(OutboundWithout(log, a), b) == OutboundWithout(log, a + b)
    decreases |log|
  {
    if log != [] {
      var rest, last := log[..|log| - 1], log[|log| - 1];
      OutboundWithoutTwice(rest, a, b);
      if SentTo(last, a) {
        assert OutboundWithout(log, a) == OutboundWithout(rest, a);
        assert OutboundWithout(log, a + b) == OutboundWithout(rest, a + b);
      } else {
        var kept := OutboundWithout(rest, a) + [last];
        assert kept[..|kept| - 1] == OutboundWithout(rest, a);
      }
    }
  }

  lemma JobsWithoutTwice(jobs: map<nat, Job>, a: set<Key>, b: set<Key>)
    ensures JobsWithout(JobsWithout(jobs, a), b) == JobsWithout(jobs, a + b)
  {}

  lemma ReviewsWithoutTwice(reviews: map<nat, Review>, a: set<Key>, b: set<Key>)
    ensures ReviewsWithout(ReviewsWithout(reviews, a), b) == ReviewsWithout(reviews, a + b)
  {}

  lemma CampaignWithoutTwice(campaign: map<(string, Key), Time>, a: set<Key>, b: set<Key>)
    ensures CampaignWithout(CampaignWithout(campaign, a), b) == CampaignWithout(campaign, a + b)
  {}

  lemma MessagesWithoutTwice(messages: MessageTable, a: set<Key>, b: set<Key>)
    ensures MessagesWithout(MessagesWithout(messages, a), b) == MessagesWithout(messages, a + b)
  {}

  lemma NoEventsTwice(events: Events, a: set<Key>, b: set<Key>)
    ensures NoEventsOf(NoEventsOf(events, a), b) == NoEventsOf(events, a + b)
  {
    MessagesWithoutTwice(events.processed, a, b);
    WithoutTwice(events.audits, a, b);
    WithoutTwice(events.links, a, b);
    OutboundWithoutTwice(events.outbound, a, b);
    MessagesWithoutTwice(events.automated, a, b);
    WithoutTwice(events.decisions, a, b);
    CampaignWithoutTwice(events.campaign, a, b);
  }

  /** Erasing one more sender after the others is erasing them all at once. */
  lemma EraseOneMore(db: Db, done: set<Key>, k: Key)
    ensures EraseKeys(EraseKeys(db, done), {k}) == EraseKeys(db, done + {k})
  {
    NoEventsTwice(db.events, done, {k});
    JobsWithoutTwice(db.jobs, done, {k});
    ReviewsWithoutTwice(db.reviews, done, {k});
    assert db.rows - done - {k} == db.rows - (done + {k});
    assert db.evidence - done - {k} == db.evidence - (done + {k});
    assert db.snapshots - done - {k} == db.snapshots - (done + {k});
  }

  /** No linked table is missing from the list. */
  lemma AllTablesListed()
    ensures forall t: Table :: t in TablesIn(SENDER_LINKED_TABLES)
  {
    forall t: Table
      ensures t in TablesIn(SENDER_LINKED_TABLES)
    {
      TableListed(t);
    }
  }

  function TablesIn(tables: seq<Table>): set<Table> {
    set t | t in tables
  }

  lemma TableListed(t: Table)
    ensures t in SENDER_LINKED_TABLES
  {
    var list := SENDER_LINKED_TABLES;
    match t {
      case ProcessedMessages => assert list[0] == t;
      case Audit => assert list[1] == t;
      case LinkEvents => assert list[2] == t;
      case OutboundEvents => assert list[3] == t;
      case AutomatedMessages => assert list[4] == t;
      case DialogSnapshots => assert list[5] == t;
      case ReviewQueue => assert list[6] == t;
      case PendingActions => assert list[7] == t;
      case DecisionEvents => assert list[8] == t;
      case CampaignEvents => assert list[9] == t;
      case EnforcementReviews => assert list[10] == t;
      case SenderState => assert list[11] == t;
    }
  }

  lemma {:induction false} WithoutNobody(log: seq<LogRow>)
    ensures Without(log, {}) == log
  {
    if log != [] { WithoutNobody(log[..|log| - 1]); }
  }

  lemma {:induction false} OutboundWithoutNobody(log: seq<OutboundRow>)
    ensures OutboundWithout(log, {}) == log
  {
    if log != [] { OutboundWithoutNobody(log[..|log| - 1]); }
  }

  lemma NoEventsOfNobody(events: Events)
    ensures NoEventsOf(events, {}) == events
  {
    assert MessagesWithout(events.processed, {}) == events.processed;
    WithoutNobody(events.audits);
    WithoutNobody(events.links);
    OutboundWithoutNobody(events.outbound);
    assert MessagesWithout(events.automated, {}) == events.automated;
    WithoutNobody(events.decisions);
    assert CampaignWithout(events.campaign, {}) == events.campaign;
  }

  lemma EraseNobody(db: Db)
    ensures EraseKeys(db, {}) == db
  {
    NoEventsOfNobody(db.events);
    assert JobsWithout(db.jobs, {}) == db.jobs;
    assert ReviewsWithout(db.reviews, {}) == db.reviews;
  }

  /** Deleting from all listed tables is erasing. */
  lemma EveryTableErased(db: Db, tables: set<Table>, keys: set<Key>)
    requires forall t: Table :: t in tables
    ensures DeleteFrom(db, tables, keys) == EraseKeys(db, keys)
  {}

  lemma TablesDistinct()
    ensures forall i, j :: 0 <= i < j < |SENDER_LINKED_TABLES| ==> SENDER_LINKED_TABLES[i] != SENDER_LINKED_TABLES[j]
  {}

  lemma DeleteFromNone(db: Db, keys: set<Key>)
    ensures DeleteFrom(db, {}, keys) == db
  {}

  /** Deleting from one more table. */
  lemma DeleteFromOneMore(db: Db, done: set<Table>, t: Table, keys: set<Key>)
    requires t !in done
    ensures DeleteFrom(DeleteFrom(db, done, keys), {t}, keys) == DeleteFrom(db, done + {t}, keys)
  {}

  lemma ReleaseOneMoreRow(rows: map<Key, Row>, done: set<Key>, k: Key, now: Time)
    requires k in rows && k !in done
    ensures ReleaseRows(rows, done, now)[k := ReleasedRow(rows[k], now)] == ReleaseRows(rows, done + {k}, now)
  {}

  lemma ReleaseJobsTwice(jobs: map<nat, Job>, a: set<Key>, b: set<Key>, now: Time)
    ensures ReleaseJobs(ReleaseJobs(jobs, a, now), b, now) == ReleaseJobs(jobs, a + b, now)
  {}

  /** Releasing one more expired suppression after the others. */
  lemma ReleaseOneMore(db: Db, done: set<Key>, k: Key, now: Time)
    requires Releases(db, k, now) && k !in done
    ensures Releases(ReleaseKeys(db, done, now), k, now)
    ensures ReleaseExpired(ReleaseKeys(db, done, now), k, now) == ReleaseKeys(db, done + {k}, now)
  {
    ReleaseOneMoreRow(db.rows, done, k, now);
    ReleaseJobsTwice(db.jobs, done, {k}, now);
    ReviewsWithoutTwice(db.reviews, done, {k});
    assert db.evidence - done - {k} == db.evidence - (done + {k});
    assert db.snapshots - done - {k} == db.snapshots - (done + {k});
  }

  lemma ReleaseNobody(db: Db, now: Time)
    ensures ReleaseKeys(db, {}, now) == db
  {
    assert ReleaseRows(db.rows, {}, now) == db.rows;
    assert ReleaseJobs(db.jobs, {}, now) == db.jobs;
    assert ReviewsWithout(db.reviews, {}) == db.reviews;
  }

  lemma {:induction false} RecentIfAny(links: seq<LogRow>, k: Key, cutoff: Time)
    ensures RecentLinks(links, k, cutoff) >= 1 <==> exists i :: 0 <= i < |links| && LinkOf(links[i], k, cutoff)
    decreases |links|
  {
    if links != [] {
      var rest := links[..|links| - 1];
      RecentIfAny(rest, k, cutoff);
      if i :| 0 <= i < |rest| && LinkOf(rest[i], k, cutoff) {
        assert LinkOf(links[i], k, cutoff);
      }
      if i :| 0 <= i < |links| && LinkOf(links[i], k, cutoff) {
        assert i < |rest| ==> LinkOf(rest[i], k, cutoff);
      }
    }
  }

  lemma ReviewCancelledNext(db: Db, pending: seq<Job>, i: nat, now: Time, retentionDays: nat)
    requires i < |pending|
    ensures ReviewCancelled(db, pending[..i + 1], now, retentionDays) ==
      AddUnlessPending(ReviewCancelled(db, pending[..i], now, retentionDays),
                       pending[i].key, pending[i].reference, "cancelled_" + pending[i].reason, now, retentionDays)
  {
    assert pending[..i + 1][..i] == pending[..i];
  }

  lemma EnqueuedIsPending(db: Db, k: Key, reference: Blob, classification: string, expiresAt: Time, now: Time)
    ensures HasPendingReview(Enqueue(db, k, reference, classification, expiresAt, now).reviews, k)
  {
    var db' := Enqueue(db, k, reference, classification, expiresAt, now);
    if HasPendingReview(db.reviews, k) {
      var i :| i in db.reviews && db.reviews[i].key == k && db.reviews[i].status.ReviewPending?;
      assert db'.reviews[i].key == k && db'.reviews[i].status.ReviewPending?;
    } else {
      assert db'.reviews[db.nextReview].key == k;
    }
  }

  lemma AddedIsPending(db: Db, k: Key, reference: Blob, classification: string, now: Time, retentionDays: nat)
    ensures HasPendingReview(AddUnlessPending(db, k, reference, classification, now, retentionDays).reviews, k)
    ensures forall other :: HasPendingReview(db.reviews, other) && NextReviewFree(db) ==>
      HasPendingReview(AddUnlessPending(db, k, reference, classification, now, retentionDays).reviews, other)
  {
    var db' := AddUnlessPending(db, k, reference, classification, now, retentionDays);
    if !HasPendingReview(db.reviews, k) {
      assert db'.reviews[db.nextReview].key == k;
    }
    forall other | HasPendingReview(db.reviews, other) && NextReviewFree(db)
      ensures HasPendingReview(db'.reviews, other)
    {
      var i :| i in db.reviews && db.reviews[i].key == other && db.reviews[i].status.ReviewPending?;
      assert db'.reviews[i] == db.reviews[i];
    }
  }

  /** The next number is not taken, as AUTOINCREMENT sees to. */
  ghost predicate NextReviewFree(db: Db) {
    forall i :: i in db.reviews ==> i < db.nextReview
  }

  /** Everybody whose work a mode change cancels has the owner's attention afterwards. */
  lemma {:induction false} CancelledAreReviewed(db: Db, pending: seq<Job>, now: Time, retentionDays: nat)
    requires NextReviewFree(db)
    ensures NextReviewFree(ReviewCancelled(db, pending, now, retentionDays))
    ensures forall k :: HasPendingReview(db.reviews, k) || (exists n :: 0 <= n < |pending| && pending[n].key == k) ==>
      HasPendingReview(ReviewCancelled(db, pending, now, retentionDays).reviews, k)
    decreases |pending|
  {
    if pending != [] {
      var rest, last := pending[..|pending| - 1], pending[|pending| - 1];
      CancelledAreReviewed(db, rest, now, retentionDays);
      var before := ReviewCancelled(db, rest, now, retentionDays);
      AddedIsPending(before, last.key, last.reference, "cancelled_" + last.reason, now, retentionDays);
      forall k | HasPendingReview(db.reviews, k) || (exists n :: 0 <= n < |pending| && pending[n].key == k)
        ensures HasPendingReview(ReviewCancelled(db, pending, now, retentionDays).reviews, k)
      {
        if n :| 0 <= n < |pending| && pending[n].key == k {
          assert n < |rest| ==> rest[n].key == k;
        }
      }
    }
  }

  lemma {:induction false} ModeBoundJobsComplete(jobs: map<nat, Job>, n: nat, id: nat)
    requires id < n && id in jobs && ModeBound(jobs[id])
    ensures exists i :: 0 <= i < |ModeBoundJobs(jobs, n)| && ModeBoundJobs(jobs, n)[i] == jobs[id]
    decreases n
  {
    var pending := ModeBoundJobs(jobs, n);
    if id == n - 1 {
      assert pending[|pending| - 1] == jobs[id];
    } else {
      ModeBoundJobsComplete(jobs, n - 1, id);
      var i :| 0 <= i < |ModeBoundJobs(jobs, n - 1)| && ModeBoundJobs(jobs, n - 1)[i] == jobs[id];
      assert pending[i] == jobs[id];
    }
  }

  ghost predicate NextJobFree(db: Db) {
    forall i :: i in db.jobs ==> i < db.nextJob
  }

  lemma SetModeReviews(db: Db, now: Time, retentionDays: nat)
    requires NextReviewFree(db) && NextJobFree(db)
    ensures forall id :: id in db.jobs && ModeBound(db.jobs[id]) ==>
      HasPendingReview(StoreSpec.SetMode(db, Monitor, now, retentionDays).reviews, db.jobs[id].key)
  {
    var cancelled := CancelModeBound(db.(mode := Monitor), now);
    CancelledAreReviewed(cancelled, ModeBoundJobs(db.jobs, db.nextJob), now, retentionDays);
    forall id | id in db.jobs && ModeBound(db.jobs[id])
      ensures HasPendingReview(StoreSpec.SetMode(db, Monitor, now, retentionDays).reviews, db.jobs[id].key)
    {
      ModeBoundJobsComplete(db.jobs, db.nextJob, id);
    }
  }

  /** The review that stands for a cancelled job. */
  predicate ReviewFor(review: Review, job: Job, now: Time, retentionDays: nat) {
    job.status.ActionPending? && !job.modeIndependent &&
    review == Review(job.key, Some(job.reference), "cancelled_" + job.reason, ReviewPending, 1, now, now,
                     now + retentionDays * 86400, None)
  }

  ghost predicate OldOrFor(db: Db, reviews: map<nat, Review>, jobs: map<nat, Job>, now: Time, retentionDays: nat) {
    forall i :: i in reviews && !(i in db.reviews && reviews[i] == db.reviews[i]) ==>
      exists id :: id in jobs && ReviewFor(reviews[i], jobs[id], now, retentionDays) &&
                   !HasPendingReview(db.reviews, reviews[i].key)
  }

  /** Adding the reviews touches nothing but the reviews. */
  lemma {:induction false} ReviewCancelledRest(db: Db, pending: seq<Job>, now: Time, retentionDays: nat)
    ensures var db' := ReviewCancelled(db, pending, now, retentionDays);
      db'.(reviews := db.reviews, nextReview := db.nextReview) == db
    decreases |pending|
  {
    if pending != [] { ReviewCancelledRest(db, pending[..|pending| - 1], now, retentionDays); }
  }

  ghost predicate Selected(jobs: map<nat, Job>, job: Job) {
    exists id :: id in jobs && jobs[id] == job && ModeBound(job)
  }

  lemma {:induction false} ModeBoundJobsSound(jobs: map<nat, Job>, n: nat)
    ensures forall job :: job in ModeBoundJobs(jobs, n) ==> Selected(jobs, job)
  {
    if n > 0 {
      ModeBoundJobsSound(jobs, n - 1);
    }
  }

  /** What a change of mode does to the tables. */
  lemma SetModeEffect(db: Db, mode: Mode, now: Time, retentionDays: nat)
    ensures var db' := StoreSpec.SetMode(db, mode, now, retentionDays);
      db'.(jobs := db.jobs, reviews := db.reviews, nextReview := db.nextReview, mode := db.mode) == db &&
      db'.mode == mode && (mode.Protect? ==> db' == db.(mode := mode)) &&
      db'.jobs == (if mode.Monitor? then CancelModeBoundJobs(db.jobs, now) else db.jobs) &&
      (NextReviewFree(db) ==> OldOrFor(db, db'.reviews, db.jobs, now, retentionDays))
  {
    if mode.Monitor? {
      var cancelled := CancelModeBound(db.(mode := mode), now);
      var pending := ModeBoundJobs(db.jobs, db.nextJob);
      ReviewCancelledRest(cancelled, pending, now, retentionDays);
      ModeBoundJobsSound(db.jobs, db.nextJob);
      if NextReviewFree(db) {
        ReviewCancelledAdds(cancelled, pending, db.jobs, now, retentionDays);
      }
    }
  }

  /** It adds a review for work that was cancelled and whose sender had none pending. */
  lemma {:induction false} ReviewCancelledAdds(db: Db, pending: seq<Job>, jobs: map<nat, Job>, now: Time,
                                               retentionDays: nat)
    requires forall job :: job in pending ==> Selected(jobs, job)
    requires NextReviewFree(db)
    ensures var db' := ReviewCancelled(db, pending, now, retentionDays);
      NextReviewFree(db') &&
      (forall k :: HasPendingReview(db.reviews, k) ==> HasPendingReview(db'.reviews, k)) &&
      OldOrFor(db, db'.reviews, jobs, now, retentionDays)
    decreases |pending|
  {
    if pending != [] {
      var rest, last := pending[..|pending| - 1], pending[|pending| - 1];
      ReviewCancelledAdds(db, rest, jobs, now, retentionDays);
      var before := ReviewCancelled(db, rest, now, retentionDays);
      AddedIsPending(before, last.key, last.reference, "cancelled_" + last.reason, now, retentionDays);
      assert Selected(jobs, last);
      var id :| id in jobs && jobs[id] == last && ModeBound(last);
      var after := ReviewCancelled(db, pending, now, retentionDays);
      if !HasPendingReview(before.reviews, last.key) {
        assert ReviewFor(after.reviews[before.nextReview], jobs[id], now, retentionDays);
        assert !HasPendingReview(db.reviews, last.key);
        OldOrForOneMore(db, before, jobs, id, now, retentionDays);
        assert after.reviews == before.reviews[before.nextReview := after.reviews[before.nextReview]];
      }
    }
  }

  lemma OldOrForOneMore(db: Db, before: Db, jobs: map<nat, Job>, id: nat, now: Time, retentionDays: nat)
    requires OldOrFor(db, before.reviews, jobs, now, retentionDays)
    requires id in jobs && !HasPendingReview(db.reviews, jobs[id].key)
    ensures forall review :: ReviewFor(review, jobs[id], now, retentionDays) ==>
      OldOrFor(db, before.reviews[before.nextReview := review], jobs, now, retentionDays)
  {}
}
