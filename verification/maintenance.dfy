/** Erasure and maintenance: what forgetting removes, whom a maintenance pass may touch, and what the
    owner's bulk command does while others keep working. */
module Maintenance {
  import opened Base
  import opened Ordering
  import opened Tables
  import opened StoreSpec
  import opened StateStore
  import opened StoreLemmas

  // ---------------------------------------------------------------- everything stored about one sender

  datatype EventsView = EventsView(
    processed: MessageTable, audits: seq<LogRow>, links: seq<LogRow>, outbound: seq<OutboundRow>,
    automated: MessageTable, decisions: seq<LogRow>, campaign: map<(string, Key), Time>)

  datatype View = View(
    row: Option<Row>, jobs: map<nat, Job>, reviews: map<nat, Review>,
    evidence: Option<Evidence>, snapshot: Option<Snapshot>, events: EventsView)

  const NOTHING: View := View(None, map[], map[], None, None, EventsView(map[], [], [], [], map[], [], map[]))

  function Only(log: seq<LogRow>, k: Key): seq<LogRow> {
    if log == [] then []
    else if log[0].sender == k then [log[0]] + Only(log[1..], k) else Only(log[1..], k)
  }

  function OnlyOutbound(log: seq<OutboundRow>, k: Key): seq<OutboundRow> {
    if log == [] then []
    else if log[0].sender == Some(k) then [log[0]] + OnlyOutbound(log[1..], k) else OnlyOutbound(log[1..], k)
  }

  function JobsOf(jobs: map<nat, Job>, k: Key): map<nat, Job> {
    map i | i in jobs && jobs[i].key == k :: jobs[i]
  }

  function ReviewsOf(reviews: map<nat, Review>, k: Key): map<nat, Review> {
    map i | i in reviews && reviews[i].key == k :: reviews[i]
  }

  function MessagesOf(messages: MessageTable, k: Key): MessageTable {
    map p | p in messages && p.0 == k :: messages[p]
  }

  function CampaignOf(campaign: map<(string, Key), Time>, k: Key): map<(string, Key), Time> {
    map p | p in campaign && p.1 == k :: campaign[p]
  }

  function EventsOf(events: Events, k: Key): EventsView {
    EventsView(MessagesOf(events.processed, k), Only(events.audits, k), Only(events.links, k),
      OnlyOutbound(events.outbound, k),
               MessagesOf(events.automated, k), Only(events.decisions, k), CampaignOf(events.campaign, k))
  }

  function ViewOf(db: Db, k: Key): View {
    View(if k in db.rows then Some(db.rows[k]) else None,
         JobsOf(db.jobs, k), ReviewsOf(db.reviews, k),
         if k in db.evidence then Some(db.evidence[k]) else None,
         if k in db.snapshots then Some(db.snapshots[k]) else None,
         EventsOf(db.events, k))
  }

  lemma {:induction false} OnlyConcat(a: seq<LogRow>, b: seq<LogRow>, k: Key)
    ensures Only(a + b, k) == Only(a, k) + Only(b, k)
  {
    if a == [] {
      assert a + b == b;
    } else {
      assert (a + b)[1..] == a[1..] + b;
      OnlyConcat(a[1..], b, k);
    }
  }

  lemma {:induction false} OnlyOutboundConcat(a: seq<OutboundRow>, b: seq<OutboundRow>, k: Key)
    ensures OnlyOutbound(a + b, k) == OnlyOutbound(a, k) + OnlyOutbound(b, k)
  {
    if a == [] {
      assert a + b == b;
    } else {
      assert (a + b)[1..] == a[1..] + b;
      OnlyOutboundConcat(a[1..], b, k);
    }
  }

  lemma {:induction false} OnlyWithout(log: seq<LogRow>, keys: set<Key>, k: Key)
    ensures Only(Without(log, keys), k) == if k in keys then [] else Only(log, k)
    decreases |log|
  {
    if log != [] {
      var rest, last := log[..|log| - 1], log[|log| - 1];
      assert log == rest + [last];
      OnlyWithout(rest, keys, k);
      OnlyConcat(rest, [last], k);
      OnlyConcat(Without(rest, keys), if last.sender in keys then [] else [last], k);
    }
  }

  lemma {:induction false} OnlyOutboundWithout(log: seq<OutboundRow>, keys: set<Key>, k: Key)
    ensures OnlyOutbound(OutboundWithout(log, keys), k) == if k in keys then [] else OnlyOutbound(log, k)
    decreases |log|
  {
    if log != [] {
      var rest, last := log[..|log| - 1], log[|log| - 1];
      assert log == rest + [last];
      OnlyOutboundWithout(rest, keys, k);
      OnlyOutboundConcat(rest, [last], k);
      OnlyOutboundConcat(OutboundWithout(rest, keys), if SentTo(last, keys) then [] else [last], k);
    }
  }

  lemma EventsErased(events: Events, keys: set<Key>, k: Key)
    ensures EventsOf(NoEventsOf(events, keys), k) == if k in keys then NOTHING.events else EventsOf(events, k)
  {
    assert MessagesOf(MessagesWithout(events.processed, keys), k) ==
           if k in keys then map[] else MessagesOf(events.processed, k);
    assert MessagesOf(MessagesWithout(events.automated, keys), k) ==
           if k in keys then map[] else MessagesOf(events.automated, k);
    OnlyWithout(events.audits, keys, k);
    OnlyWithout(events.links, keys, k);
    OnlyOutboundWithout(events.outbound, keys, k);
    OnlyWithout(events.decisions, keys, k);
  }

  /** Erasing leaves nothing of the erased and everything of the others, in every linked table. */
  lemma ErasedExactly(db: Db, keys: set<Key>, k: Key)
    ensures ViewOf(EraseKeys(db, keys), k) == if k in keys then NOTHING else ViewOf(db, k)
  {
    EventsErased(db.events, keys, k);
    assert JobsOf(JobsWithout(db.jobs, keys), k) == if k in keys then map[] else JobsOf(db.jobs, k);
    assert ReviewsOf(ReviewsWithout(db.reviews, keys), k) == if k in keys then map[] else ReviewsOf(db.reviews, k);
  }

  lemma {:induction false} OnlyFinds(log: seq<LogRow>, k: Key, i: nat)
    requires i < |log| && log[i].sender == k
    ensures Only(log, k) != []
  {
    if i > 0 { OnlyFinds(log[1..], k, i - 1); }
  }

  lemma {:induction false} OnlyOutboundFinds(log: seq<OutboundRow>, k: Key, i: nat)
    requires i < |log| && log[i].sender == Some(k)
    ensures OnlyOutbound(log, k) != []
  {
    if i > 0 { OnlyOutboundFinds(log[1..], k, i - 1); }
  }

  lemma LogMentions(log: seq<LogRow>, k: Key)
    requires Only(log, k) == []
    ensures !exists i :: 0 <= i < |log| && log[i].sender == k
  {
    if i :| 0 <= i < |log| && log[i].sender == k { OnlyFinds(log, k, i); }
  }

  /** A sender of whom nothing is stored appears in no linked table. */
  lemma NothingIsMentioned(db: Db, t: Table, k: Key)
    requires ViewOf(db, k) == NOTHING
    ensures !Mentions(db, t, k)
  {
    match t {
      case ProcessedMessages =>
        assert forall p :: p in db.events.processed && p.0 == k ==> p in MessagesOf(db.events.processed, k);
      case Audit => LogMentions(db.events.audits, k);
      case LinkEvents => LogMentions(db.events.links, k);
      case OutboundEvents =>
        if i :| 0 <= i < |db.events.outbound| && db.events.outbound[i].sender == Some(k) {
          OnlyOutboundFinds(db.events.outbound, k, i);
        }
      case AutomatedMessages =>
        assert forall p :: p in db.events.automated && p.0 == k ==> p in MessagesOf(db.events.automated, k);
      case DecisionEvents => LogMentions(db.events.decisions, k);
      case ReviewQueue =>
        assert forall i :: i in db.reviews && db.reviews[i].key == k ==> i in ReviewsOf(db.reviews, k);
      case PendingActions =>
        assert forall i :: i in db.jobs && db.jobs[i].key == k ==> i in JobsOf(db.jobs, k);
      case CampaignEvents =>
        assert forall p :: p in db.events.campaign && p.1 == k ==> p in CampaignOf(db.events.campaign, k);
      case DialogSnapshots =>
      case EnforcementReviews =>
      case SenderState =>
    }
  }

  /** Forgetting an eligible sender leaves no row of it anywhere; an ineligible one, and everybody else, keeps all. */
  lemma ForgetIsExact(db: Db, k: Key, archivedBefore: Option<Time>, other: Key)
    ensures ViewOf(Forget(db, k, archivedBefore), other) ==
            if other == k && Forgettable(db, k, archivedBefore) then NOTHING else ViewOf(db, other)
    ensures Forgettable(db, k, archivedBefore) ==> forall t :: !Mentions(Forget(db, k, archivedBefore), t, k)
  {
    if Forgettable(db, k, archivedBefore) {
      ErasedExactly(db, {k}, other);
      ErasedExactly(db, {k}, k);
      forall t ensures !Mentions(Forget(db, k, archivedBefore), t, k) {
        NothingIsMentioned(Forget(db, k, archivedBefore), t, k);
      }
    }
  }

  // ---------------------------------------------------------------- one maintenance pass

  lemma RefreshedRows(db: Db, days: nat, permitted: Option<set<Key>>, now: Time, k: Key)
    ensures var kept := Refresh(db, days, permitted, now);
      (k in kept.rows <==> k in db.rows) &&
      (k in db.rows ==>
        kept.rows[k] == if k in ExpiredKeys(db, permitted, now) then ReleasedRow(db.rows[k], now) else db.rows[k])
  {}

  /** Releasing temporary suppressions leaves the archived permanent ones as they were. */
  lemma RefreshKeepsArchived(db: Db, days: nat, permitted: Option<set<Key>>, now: Time, cutoff: Time)
    ensures ArchivedBefore(Refresh(db, days, permitted, now), cutoff) == ArchivedBefore(db, cutoff)
  {
    forall k: Key
      ensures k in ArchivedBefore(Refresh(db, days, permitted, now), cutoff) <==> k in ArchivedBefore(db, cutoff)
    {
      RefreshedRows(db, days, permitted, now, k);
    }
  }

  /** A pass touches the rows of permitted senders only. */
  lemma PruneTouchesPermitted(db: Db, days: nat, archivedDays: Option<nat>, keys: set<Key>, now: Time, k: Key)
    requires k !in keys
    ensures var db' := Prune(db, days, archivedDays, Some(keys), now);
      (k in db'.rows <==> k in db.rows) && (k in db.rows ==> db'.rows[k] == db.rows[k])
  {
    RefreshedRows(db, days, Some(keys), now, k);
  }

  lemma ListedAreAll(db: Db, days: nat, archivedDays: Option<nat>, now: Time)
    ensures var listed := Some(MaintenanceKeys(db, archivedDays, now));
      ExpiredKeys(db, listed, now) == ExpiredKeys(db, None, now) &&
      Refresh(db, days, listed, now) == Refresh(db, days, None, now) &&
      Forgets(Refresh(db, days, None, now), archivedDays, listed, now)
        == Forgets(Refresh(db, days, None, now), archivedDays, None, now)
  {
    var listed := Some(MaintenanceKeys(db, archivedDays, now));
    assert ExpiredKeys(db, listed, now) == ExpiredKeys(db, None, now);
    if archivedDays.Some? {
      var kept, cutoff := Refresh(db, days, None, now), now - archivedDays.value * DAY;
      RefreshKeepsArchived(db, days, None, now, cutoff);
      assert ForgottenKeys(kept, None, cutoff) <= ArchivedBefore(kept, cutoff);
      assert ForgottenKeys(kept, listed, cutoff) == ForgottenKeys(kept, None, cutoff);
    }
  }

  /** The locks maintenance takes are the ones it needs: on one state of the database, a pass restricted to the
      listed senders does what an unrestricted pass would do, and no other sender's row changes. */
  lemma ListedSendersSuffice(db: Db, days: nat, archivedDays: Option<nat>, now: Time, k: Key)
    ensures var listed := MaintenanceKeys(db, archivedDays, now);
      Prune(db, days, archivedDays, Some(listed), now) == Prune(db, days, archivedDays, None, now) &&
      (k !in listed ==>
        var db' := Prune(db, days, archivedDays, Some(listed), now);
        (k in db'.rows <==> k in db.rows) && (k in db.rows ==> db'.rows[k] == db.rows[k]))
  {
    ListedAreAll(db, days, archivedDays, now);
    var listed := MaintenanceKeys(db, archivedDays, now);
    if k !in listed {
      PruneTouchesPermitted(db, days, archivedDays, listed, now, k);
    }
  }

  lemma OpenWorkSplits(db: Db, cutoff: Time)
    ensures |ForgottenKeys(db, None, cutoff)| + |SkippedKeys(db, cutoff)| == |ArchivedBefore(db, cutoff)|
  {
    var forgotten, skipped := ForgottenKeys(db, None, cutoff), SkippedKeys(db, cutoff);
    assert forgotten !! skipped;
    assert forgotten + skipped == ArchivedBefore(db, cutoff);
  }

  /** The two counters of a pass add up to the archived permanent restrictions past the cutoff. */
  lemma CountersAddUp(db: Db, days: nat, archivedDays: nat, now: Time)
    ensures var listed := Some(MaintenanceKeys(db, Some(archivedDays), now));
      var kept := Refresh(db, days, listed, now);
      |Forgets(kept, Some(archivedDays), listed, now)| + |Skips(kept, Some(archivedDays), now)|
      == |ArchivedBefore(db, now - archivedDays * DAY)|
  {
    ListedAreAll(db, days, Some(archivedDays), now);
    RefreshKeepsArchived(db, days, None, now, now - archivedDays * DAY);
    OpenWorkSplits(Refresh(db, days, None, now), now - archivedDays * DAY);
  }

  // ---------------------------------------------------------------- the bulk command

  /** What the owner is shown before confirming. */
  function ForgetPreview(db: Db, cutoff: Time): set<Key> {
    set k | k in db.rows && Forgettable(db, k, Some(cutoff))
  }

  /** What else happens while the command waits for each lock. */
  type Others = (nat, Db) -> Db

  /** The database before the n-th candidate is looked at, once its lock is held. */
  function Before(db: Db, keys: seq<Key>, others: Others, cutoff: Time, n: nat): Db
    requires n < |keys|
  {
    others(n, After(db, keys, others, cutoff, n))
  }

  /** The database after the first `n` candidates. */
  function After(db: Db, keys: seq<Key>, others: Others, cutoff: Time, n: nat): Db
    requires n <= |keys|
    decreases n, 0
  {
    if n == 0 then db else Forget(others(n - 1, After(db, keys, others, cutoff, n - 1)), keys[n - 1], Some(cutoff))
  }

  function Count(db: Db, keys: seq<Key>, others: Others, cutoff: Time, n: nat): nat
    requires n <= |keys|
  {
    if n == 0 then 0
    else Count(db, keys, others, cutoff, n - 1) +
         (if Forgettable(Before(db, keys, others, cutoff, n - 1), keys[n - 1], Some(cutoff)) then 1 else 0)
  }

  /** Whatever the others do, the command itself erases a candidate only when it is eligible at that moment. */
  lemma BulkErasesOnlyEligible(db: Db, keys: seq<Key>, others: Others, cutoff: Time, n: nat, k: Key)
    requires n < |keys|
    ensures var before := Before(db, keys, others, cutoff, n);
      ViewOf(After(db, keys, others, cutoff, n + 1), k) ==
        if k == keys[n] && Forgettable(before, k, Some(cutoff)) then NOTHING else ViewOf(before, k)
  {
    ForgetIsExact(Before(db, keys, others, cutoff, n), keys[n], Some(cutoff), k);
  }

  // ---------------------------------------------------------------- undisturbed, it does what the preview says

  lemma ErasedKeepsEligible(db: Db, erased: set<Key>, k: Key, cutoff: Time)
    requires k !in erased
    ensures Forgettable(EraseKeys(db, erased), k, Some(cutoff)) <==> Forgettable(db, k, Some(cutoff))
  {
    var jobs := JobsWithout(db.jobs, erased);
    assert HasOpenJob(jobs, k) <==> HasOpenJob(db.jobs, k) by {
      if i :| i in db.jobs && db.jobs[i].key == k && Open(db.jobs[i].status) {
        assert i in jobs && jobs[i].key == k && Open(jobs[i].status);
      }
    }
  }

  lemma ForgetAfterErasing(db: Db, erased: set<Key>, k: Key, cutoff: Time)
    requires k !in erased
    ensures Forget(EraseKeys(db, erased), k, Some(cutoff)) ==
            EraseKeys(db, if Forgettable(db, k, Some(cutoff)) then erased + {k} else erased)
  {
    ErasedKeepsEligible(db, erased, k, cutoff);
    EraseOneMore(db, erased, k);
  }

  function EligibleAmong(db: Db, keys: seq<Key>, cutoff: Time): set<Key> {
    set k | k in keys && Forgettable(db, k, Some(cutoff))
  }

  ghost predicate NobodyElse(others: Others) {
    forall n: nat, db: Db :: others(n, db) == db
  }

  lemma {:induction false} UndisturbedSteps(db: Db, keys: seq<Key>, others: Others, cutoff: Time, n: nat)
    requires NobodyElse(others) && n <= |keys|
    requires forall i, j :: 0 <= i < j < |keys| ==> keys[i] < keys[j]
    ensures After(db, keys, others, cutoff, n) == EraseKeys(db, EligibleAmong(db, keys[..n], cutoff))
    ensures Count(db, keys, others, cutoff, n) == |EligibleAmong(db, keys[..n], cutoff)|
  {
    if n == 0 {
      EraseNobody(db);
      assert EligibleAmong(db, keys[..0], cutoff) == {};
    } else {
      UndisturbedSteps(db, keys, others, cutoff, n - 1);
      var k, erased := keys[n - 1], EligibleAmong(db, keys[..n - 1], cutoff);
      ErasedKeepsEligible(db, erased, k, cutoff);
      ForgetAfterErasing(db, erased, k, cutoff);
      EligibleGrows(db, keys, cutoff, n);
    }
  }

  lemma EligibleGrows(db: Db, keys: seq<Key>, cutoff: Time, n: nat)
    requires 0 < n <= |keys|
    ensures EligibleAmong(db, keys[..n], cutoff) == EligibleAmong(db, keys[..n - 1], cutoff) +
            (if Forgettable(db, keys[n - 1], Some(cutoff)) then {keys[n - 1]} else {})
  {
    assert keys[..n] == keys[..n - 1] + [keys[n - 1]];
  }

  /** The command in the order of its candidate list, re-checking each under its lock. */
  method ForgetBulk(store: Store, cutoff: Time, others: Others) returns (count: nat, ghost keys: seq<Key>)
    modifies store
    ensures forall k :: k in keys <==> k in ArchivedBefore(old(store.Contents()), cutoff)
    ensures forall i, j :: 0 <= i < j < |keys| ==> keys[i] < keys[j]
    ensures store.Contents() == After(old(store.Contents()), keys, others, cutoff, |keys|)
    ensures count == Count(old(store.Contents()), keys, others, cutoff, |keys|)
    // With nobody else at work the count is the previewed one and exactly the previewed senders are erased.
    ensures NobodyElse(others) ==>
      count == |ForgetPreview(old(store.Contents()), cutoff)| &&
      store.Contents() == EraseKeys(old(store.Contents()), ForgetPreview(old(store.Contents()), cutoff))
  {
    ghost var before := store.Contents();
    var candidates := Ascending(ArchivedBefore(store.Contents(), cutoff));
    keys := candidates;
    count := 0;
    for n := 0 to |candidates|
      invariant store.Contents() == After(before, candidates, others, cutoff, n)
      invariant count == Count(before, candidates, others, cutoff, n)
    {
      store.Load(others(n, store.Contents()));
      var forgotten := store.ForgetRestriction(candidates[n], Some(cutoff));
      if forgotten {
        count := count + 1;
      }
    }
    if NobodyElse(others) {
      UndisturbedSteps(before, candidates, others, cutoff, |candidates|);
      assert candidates[..|candidates|] == candidates;
      assert EligibleAmong(before, candidates, cutoff) == ForgetPreview(before, cutoff);
    }
  }

  /** ORDER BY sender_key. */
  method Ascending(keys: set<Key>) returns (list: seq<Key>)
    ensures forall k :: k in list <==> k in keys
    ensures forall i, j :: 0 <= i < j < |list| ==> list[i] < list[j]
  {
    var rank: Rank := map k | k in keys :: 0;
    list := Sort(rank);
    assert forall i, j :: 0 <= i < j < |list| ==> Precedes(rank, list[i], list[j]);
  }
}
