/** The dashboard's lists of restrictions: the two partitions, the reasons, the counts and the pages. */
module Listing {
  import opened Base
  import opened Ordering
  import opened Tables

  const PAGE_SIZE: nat := 50

  // `archived` picks a partition, None both; the other two narrow the list.
  datatype Filter = Filter(archived: Option<bool>, reason: Option<string>, archivedBefore: Option<Time>)

  // ---------------------------------------------------------------- what a list shows

  predicate HasOpenWork(db: Db, k: Key) {
    HasOpenJob(db.jobs, k)
  }

  predicate Archived(db: Db, k: Key)
    requires k in db.rows
  {
    var row := db.rows[k];
    row.status.Suppressed? && row.suppressedUntil.None? && row.archivedAt.Some? && !HasOpenWork(db, k)
  }

  predicate NeedsAttention(db: Db, k: Key)
    requires k in db.rows
  {
    var row := db.rows[k];
    Restricted(row.status) &&
    (row.status.Quarantined? || row.suppressedUntil.Some? || row.archivedAt.None? || HasOpenWork(db, k))
  }

  predicate InPartition(db: Db, k: Key, archived: Option<bool>)
    requires k in db.rows
  {
    match archived
    case None => Restricted(db.rows[k].status)
    case Some(true) => Archived(db, k)
    case Some(false) => NeedsAttention(db, k)
  }

  predicate EverSpam(db: Db, k: Key) {
    exists i :: i in db.reviews && db.reviews[i].key == k && db.reviews[i].status.Spam?
  }

  /** The evidence joined to a row: only while it has not expired. */
  function Evident(db: Db, k: Key, now: Time): Option<Evidence> {
    if k in db.evidence && db.evidence[k].expiresAt > now then Some(db.evidence[k]) else None
  }

  /** The displayed reason; every restriction has one. */
  function Reason(db: Db, k: Key, now: Time): string
    requires k in db.rows
  {
    if db.rows[k].suppressionReason.Some? then db.rows[k].suppressionReason.value
    else if Evident(db, k, now).Some? then Evident(db, k, now).value.reason
    else FallbackReason(db, k)
  }

  function FallbackReason(db: Db, k: Key): string {
    if EverSpam(db, k) then "manual_spam" else "reason_unavailable"
  }

  predicate Matches(db: Db, k: Key, f: Filter, now: Time)
    requires k in db.rows
  {
    InPartition(db, k, f.archived) &&
    (f.reason.Some? ==> Reason(db, k, now) == f.reason.value) &&
    (f.archivedBefore.Some? ==> db.rows[k].archivedAt.Some? && db.rows[k].archivedAt.value <= f.archivedBefore.value)
  }

  function Selected(db: Db, f: Filter, now: Time): set<Key> {
    set k | k in db.rows && Matches(db, k, f, now)
  }

  /** The two lists split the restrictions, whatever else is filtered. */
  lemma ListsPartition(db: Db, reason: Option<string>, archivedBefore: Option<Time>, now: Time)
    ensures var all := Selected(db, Filter(None, reason, archivedBefore), now);
            var archived := Selected(db, Filter(Some(true), reason, archivedBefore), now);
            var attention := Selected(db, Filter(Some(false), reason, archivedBefore), now);
            archived !! attention && archived + attention == all && |archived| + |attention| == |all|
  {
    var all := Selected(db, Filter(None, reason, archivedBefore), now);
    var archived := Selected(db, Filter(Some(true), reason, archivedBefore), now);
    var attention := Selected(db, Filter(Some(false), reason, archivedBefore), now);
    assert archived !! attention;
    assert archived + attention == all;
  }

  // ---------------------------------------------------------------- order

  /** What the list is sorted by, newest first; ties go by key. */
  function SortTime(db: Db, archived: Option<bool>, k: Key): Time
    requires k in db.rows
  {
    if archived == Some(true) then (if db.rows[k].archivedAt.Some? then db.rows[k].archivedAt.value else 0)
    else db.rows[k].updatedAt
  }

  /** ORDER BY time DESC, sender_key ASC. */
  function RankOf(db: Db, f: Filter, now: Time): Rank {
    map k | k in Selected(db, f, now) :: -SortTime(db, f.archived, k)
  }

  /** All restrictions a filter selects, in the order of the list. */
  ghost predicate FullList(db: Db, f: Filter, now: Time, list: seq<Key>) {
    Lists(RankOf(db, f, now), list)
  }

  /** Above each other in the list: the one that changed, or was archived, later; at the same time by key. */
  predicate Above(db: Db, archived: bool, a: Key, b: Key) {
    a in db.rows && b in db.rows &&
    if archived then
      db.rows[a].archivedAt.Some? && db.rows[b].archivedAt.Some? &&
      (db.rows[a].archivedAt.value > db.rows[b].archivedAt.value ||
       (db.rows[a].archivedAt.value == db.rows[b].archivedAt.value && a < b))
    else
      db.rows[a].updatedAt > db.rows[b].updatedAt || (db.rows[a].updatedAt == db.rows[b].updatedAt && a < b)
  }

  ghost predicate NewestFirst(db: Db, archived: bool, list: seq<Key>) {
    forall i, j :: 0 <= i < j < |list| ==> Above(db, archived, list[i], list[j])
  }

  /** All work on the sender is over. */
  ghost predicate NothingLeft(db: Db, k: Key) {
    forall i :: i in db.jobs && db.jobs[i].key == k ==>
      db.jobs[i].status.Completed? || db.jobs[i].status.Cancelled?
  }

  /** What the list holds, read off the rows, the jobs and the reason shown. */
  ghost predicate Shown(db: Db, k: Key, f: Filter, now: Time) {
    k in db.rows && (db.rows[k].status.Quarantined? || db.rows[k].status.Suppressed?) &&
    (f.archived.Some? ==>
       (f.archived.value <==>
          db.rows[k].status.Suppressed? && db.rows[k].suppressedUntil.None? && db.rows[k].archivedAt.Some? &&
          NothingLeft(db, k))) &&
    (f.reason.Some? ==> ShowsReason(db, k, f.reason.value, now)) &&
    (f.archivedBefore.Some? ==> db.rows[k].archivedAt.Some? && db.rows[k].archivedAt.value <= f.archivedBefore.value)
  }

  /** The row's own reason, else that of evidence that still counts, else what the reviews say. */
  ghost predicate ShowsReason(db: Db, k: Key, reason: string, now: Time)
    requires k in db.rows
  {
    db.rows[k].suppressionReason == Some(reason) ||
    (db.rows[k].suppressionReason.None? &&
     if k in db.evidence && now < db.evidence[k].expiresAt then db.evidence[k].reason == reason
     else reason == (if exists i :: i in db.reviews && db.reviews[i].key == k && db.reviews[i].status == Spam
                     then "manual_spam" else "reason_unavailable"))
  }

  lemma SelectedAreShown(db: Db, f: Filter, now: Time, k: Key)
    ensures k in Selected(db, f, now) <==> Shown(db, k, f, now)
  {
    if k in db.rows {
      assert HasOpenWork(db, k) <==> !NothingLeft(db, k);
    }
  }

  /** The list holds exactly what is shown, newest first. */
  lemma ListIsNewestFirst(db: Db, f: Filter, now: Time, list: seq<Key>)
    requires FullList(db, f, now, list)
    ensures NewestFirst(db, f.archived == Some(true), list)
    ensures forall k :: k in list <==> Shown(db, k, f, now)
  {
    var rank := RankOf(db, f, now);
    forall k: Key ensures k in list <==> Shown(db, k, f, now) {
      SelectedAreShown(db, f, now, k);
      assert k in list <==> k in rank;
    }
    forall i, j | 0 <= i < j < |list| ensures Above(db, f.archived == Some(true), list[i], list[j]) {
      assert list[i] in list && list[j] in list;
      assert Precedes(rank, list[i], list[j]);
    }
  }

  // ---------------------------------------------------------------- pages

  predicate PageExists(page: int, total: nat) {
    page == 1 || (page - 1) * PAGE_SIZE < total
  }

  /** The number of pages the pager shows. */
  function TotalPages(total: nat): nat {
    Max(1, (total + PAGE_SIZE - 1) / PAGE_SIZE)
  }

  /** A page is served exactly when the pager shows it. */
  lemma PageExistsIffShown(page: nat, total: nat)
    requires page >= 1
    ensures PageExists(page, total) <==> page <= TotalPages(total)
  {
    var pages := (total + PAGE_SIZE - 1) / PAGE_SIZE;
    assert PAGE_SIZE * pages <= total + PAGE_SIZE - 1 < PAGE_SIZE * pages + PAGE_SIZE;
    if page > 1 {
      if page <= pages {
        assert (page - 1) * PAGE_SIZE <= (pages - 1) * PAGE_SIZE;
      } else {
        assert (page - 1) * PAGE_SIZE >= pages * PAGE_SIZE;
      }
    }
  }

  /** LIMIT and OFFSET. */
  function PageOf(list: seq<Key>, page: nat): seq<Key>
    requires page >= 1
  {
    var from, to := (page - 1) * PAGE_SIZE, page * PAGE_SIZE;
    if from >= |list| then [] else if to >= |list| then list[from..] else list[from..to]
  }

  /** Fifty in a row from the page's place on, or as many as are left. */
  lemma PageIsPart(list: seq<Key>, page: nat)
    requires page >= 1
    ensures |PageOf(list, page)| == Max(0, Min(50, |list| - (page - 1) * 50))
    ensures forall i :: 0 <= i < |PageOf(list, page)| ==> PageOf(list, page)[i] == list[(page - 1) * 50 + i]
  {}

  /** The first pages one after the other. */
  function Pages(list: seq<Key>, n: nat): seq<Key> {
    if n == 0 then [] else Pages(list, n - 1) + PageOf(list, n)
  }

  lemma {:induction false} PagesAreAPrefix(list: seq<Key>, n: nat)
    ensures Pages(list, n) == if n * PAGE_SIZE >= |list| then list else list[..n * PAGE_SIZE]
  {
    if n > 0 {
      PagesAreAPrefix(list, n - 1);
      var from, to := (n - 1) * PAGE_SIZE, n * PAGE_SIZE;
      assert to == from + PAGE_SIZE;
      if from < |list| <= to {
        assert list == list[..from] + list[from..];
      } else if to < |list| {
        assert list[..to] == list[..from] + list[from..to];
      }
    }
  }

  /** Reading every page the pager shows reads the whole list, in order and without repeats. */
  lemma PagesAreTheList(db: Db, f: Filter, now: Time, list: seq<Key>)
    requires FullList(db, f, now, list)
    ensures Pages(list, TotalPages(|Selected(db, f, now)|)) == list
    ensures |list| == |Selected(db, f, now)|
    ensures forall i, j :: 0 <= i < j < |list| ==> list[i] != list[j]
  {
    SortedSize(RankOf(db, f, now), list);
    assert Selected(db, f, now) == Members(list);
    PagesAreAPrefix(list, TotalPages(|list|));
    var pages := (|list| + PAGE_SIZE - 1) / PAGE_SIZE;
    assert pages * PAGE_SIZE >= |list|;
    assert TotalPages(|list|) * PAGE_SIZE >= pages * PAGE_SIZE;
  }

  // ---------------------------------------------------------------- the queries

  method ActiveRestrictions(db: Db, f: Filter, now: Time) returns (list: seq<Key>)
    ensures FullList(db, f, now, list)
    ensures NewestFirst(db, f.archived == Some(true), list)
    ensures forall k :: k in list <==> Shown(db, k, f, now)
  {
    list := Sort(RankOf(db, f, now));
    ListIsNewestFirst(db, f, now, list);
  }

  /** One page of a list, with the total behind the pager; nothing when there is no such page. The total is
      counted at a clock reading of its own. */
  method CasePage(db: Db, f: Filter, page: nat, countedAt: Time, now: Time)
      returns (total: nat, items: Option<seq<Key>>)
    requires page >= 1
    ensures total == |Selected(db, f, countedAt)|
    ensures items.Some? <==> page <= TotalPages(total)
    ensures items.Some? ==> forall list :: FullList(db, f, now, list) ==> items.value == PageOf(list, page)
    ensures items.Some? ==> |items.value| <= 50 && NewestFirst(db, f.archived == Some(true), items.value)
    ensures items.Some? ==> forall k :: k in items.value ==> Shown(db, k, f, now)
  {
    total := |Selected(db, f, countedAt)|;
    PageExistsIffShown(page, total);
    if !(page == 1 || (page - 1) * PAGE_SIZE < total) {
      return total, None;
    }
    var list := ActiveRestrictions(db, f, now);
    forall other | FullList(db, f, now, other) ensures other == list {
      SortedIsUnique(RankOf(db, f, now), other, list);
    }
    items := Some(PageOf(list, page));
    PageIsPart(list, page);
  }

  /** Whether the sender's evidence stops counting between two readings of the clock. */
  predicate ExpiresBetween(db: Db, k: Key, a: Time, b: Time) {
    k in db.evidence && (a < db.evidence[k].expiresAt <= b || b < db.evidence[k].expiresAt <= a)
  }

  /** Whether losing its evidence moves a listed restriction into or out of the filtered reason. */
  predicate ReasonTurns(db: Db, k: Key, f: Filter)
    requires k in db.rows
  {
    f.reason.Some? && InPartition(db, k, f.archived) &&
    (f.archivedBefore.Some? ==> db.rows[k].archivedAt.Some? && db.rows[k].archivedAt.value <= f.archivedBefore.value) &&
    db.rows[k].suppressionReason.None? && k in db.evidence &&
    (db.evidence[k].reason == f.reason.value) != (FallbackReason(db, k) == f.reason.value)
  }

  /** The two readings select the same restrictions exactly if no evidence that expires in between turns the
      filtered reason of a listed sender. */
  lemma SameSelectionAcrossClocks(db: Db, f: Filter, a: Time, b: Time)
    ensures Selected(db, f, a) == Selected(db, f, b) <==>
            forall k :: k in db.rows && ExpiresBetween(db, k, a, b) ==> !ReasonTurns(db, k, f)
  {
    forall k | k in db.rows
      ensures (Matches(db, k, f, a) <==> Matches(db, k, f, b)) <==>
              !(ExpiresBetween(db, k, a, b) && ReasonTurns(db, k, f))
    {}
    if Selected(db, f, a) == Selected(db, f, b) {
      forall k | k in db.rows ensures Matches(db, k, f, a) <==> Matches(db, k, f, b) {
        assert k in Selected(db, f, a) <==> k in Selected(db, f, b);
      }
    }
  }

  /** Then the pages shown are the whole list. */
  lemma PagesMatchTheTotal(db: Db, f: Filter, countedAt: Time, now: Time, list: seq<Key>)
    requires FullList(db, f, now, list)
    requires forall k :: k in db.rows && ExpiresBetween(db, k, countedAt, now) ==> !ReasonTurns(db, k, f)
    ensures Pages(list, TotalPages(|Selected(db, f, countedAt)|)) == list
  {
    SameSelectionAcrossClocks(db, f, countedAt, now);
    PagesAreTheList(db, f, now, list);
  }

  /** Otherwise they may not be: here the pager counts one restriction and the list is empty. */
  lemma ClocksCanDisagree() returns (db: Db, f: Filter)
    ensures |Selected(db, f, 9)| == 1 && Selected(db, f, 10) == {}
  {
    var row := NO_ROW.(status := Quarantined);
    db := EMPTY.(rows := map[7 := row], evidence := map[7 := Evidence(None, [], "warning_failed", 0, 0, 10)]);
    f := Filter(None, Some("warning_failed"), None);
    assert Selected(db, f, 9) == {7};
  }

  // ---------------------------------------------------------------- statistics

  datatype ReasonCount = ReasonCount(reason: string, count: nat)

  datatype Statistics = Statistics(
    quarantined: nat, suppressed: nat, reviewable: nat, identifiable: nat,
    unreviewable: nat, unidentified: nat, reasons: seq<ReasonCount>)

  function Sum(rows: seq<ReasonCount>): nat {
    if rows == [] then 0 else rows[0].count + Sum(rows[1..])
  }

  function WithReason(db: Db, keys: set<Key>, reason: string, now: Time): set<Key>
    requires forall k :: k in keys ==> k in db.rows
  {
    set k | k in keys && Reason(db, k, now) == reason
  }

  function WithStatus(db: Db, keys: set<Key>, status: SenderStatus): set<Key>
    requires forall k :: k in keys ==> k in db.rows
  {
    set k | k in keys && db.rows[k].status == status
  }

  /** Restrictions whose evidence can be opened. */
  function WithEvidence(db: Db, keys: set<Key>, now: Time): set<Key> {
    set k | k in keys && Evident(db, k, now).Some?
  }

  /** Restrictions whose sender can be found again. */
  function WithIdentity(db: Db, keys: set<Key>): set<Key>
    requires forall k :: k in keys ==> k in db.rows
  {
    set k | k in keys && db.rows[k].restrictionReference.Some?
  }

  lemma {:induction false} SumConcat(a: seq<ReasonCount>, b: seq<ReasonCount>)
    ensures Sum(a + b) == Sum(a) + Sum(b)
  {
    if a == [] {
      assert a + b == b;
    } else {
      assert (a + b)[1..] == a[1..] + b;
      SumConcat(a[1..], b);
    }
  }

  predicate Counted(rows: seq<ReasonCount>, reason: string) {
    exists i :: 0 <= i < |rows| && rows[i].reason == reason
  }

  lemma CountedOneMore(rows: seq<ReasonCount>, row: ReasonCount, reason: string)
    ensures Counted(rows + [row], reason) <==> Counted(rows, reason) || reason == row.reason
  {
    var more := rows + [row];
    if i :| 0 <= i < |rows| && rows[i].reason == reason {
      assert more[i].reason == reason;
    }
    assert more[|rows|] == row;
  }

  /** GROUP BY reason. */
  method CountReasons(db: Db, keys: set<Key>, now: Time) returns (rows: seq<ReasonCount>)
    requires forall k :: k in keys ==> k in db.rows
    ensures forall i, j :: 0 <= i < j < |rows| ==> rows[i].reason != rows[j].reason
    ensures forall i :: 0 <= i < |rows| ==>
      rows[i].count == |WithReason(db, keys, rows[i].reason, now)| && rows[i].count > 0
    ensures forall k :: k in keys ==> Counted(rows, Reason(db, k, now))
    ensures Sum(rows) == |keys|
  {
    rows := [];
    var rest := keys;
    while rest != {}
      invariant rest <= keys
      invariant forall i, j :: 0 <= i < j < |rows| ==> rows[i].reason != rows[j].reason
      invariant forall i :: 0 <= i < |rows| ==>
        rows[i].count == |WithReason(db, keys, rows[i].reason, now)| && rows[i].count > 0
      invariant forall k :: k in keys ==> (k in rest <==> !Counted(rows, Reason(db, k, now)))
      invariant Sum(rows) + |rest| == |keys|
      decreases rest
    {
      var k :| k in rest;
      var reason := Reason(db, k, now);
      var group := WithReason(db, keys, reason, now);
      assert k in group && group <= rest;
      SumConcat(rows, [ReasonCount(reason, |group|)]);
      forall other: string
        ensures Counted(rows + [ReasonCount(reason, |group|)], other) <==> Counted(rows, other) || other == reason
      {
        CountedOneMore(rows, ReasonCount(reason, |group|), other);
      }
      rows, rest := rows + [ReasonCount(reason, |group|)], rest - group;
    }
  }

  lemma EveryRestrictionHasOneStatus(db: Db, archived: Option<bool>, now: Time)
    ensures var keys := Selected(db, Filter(archived, None, None), now);
      |WithStatus(db, keys, Quarantined)| + |WithStatus(db, keys, Suppressed)| == |keys|
  {
    var keys := Selected(db, Filter(archived, None, None), now);
    var quarantined, suppressed := WithStatus(db, keys, Quarantined), WithStatus(db, keys, Suppressed);
    assert quarantined !! suppressed;
    assert quarantined + suppressed == keys;
  }

  /** What the reason filter of a list selects is what the statistics count under that reason. */
  lemma ReasonFilterMatchesCount(db: Db, archived: Option<bool>, reason: string, now: Time)
    ensures WithReason(db, Selected(db, Filter(archived, None, None), now), reason, now)
         == Selected(db, Filter(archived, Some(reason), None), now)
  {}

  /** The statistics of one partition: statuses and reasons each add up to the length of its list, and every
      reason counts exactly the list filtered by it. */
  method EnforcementStatistics(db: Db, archived: Option<bool>, now: Time) returns (stats: Statistics)
    ensures var total := |Selected(db, Filter(archived, None, None), now)|;
      stats.quarantined + stats.suppressed == total && Sum(stats.reasons) == total &&
      stats.reviewable + stats.unreviewable == total && stats.identifiable + stats.unidentified == total
    ensures forall i :: 0 <= i < |stats.reasons| ==>
      stats.reasons[i].count == |Selected(db, Filter(archived, Some(stats.reasons[i].reason), None), now)|
    ensures forall reason ::
      Selected(db, Filter(archived, Some(reason), None), now) != {} ==> Counted(stats.reasons, reason)
    // Read off the rows: the suppressed ones, those whose evidence has not run out, and those with an identity.
    ensures var f := Filter(archived, None, None);
      stats.suppressed == |set k | k in db.rows && Shown(db, k, f, now) && db.rows[k].status.Suppressed?| &&
      stats.reviewable ==
        |set k | k in db.rows && Shown(db, k, f, now) && k in db.evidence && now < db.evidence[k].expiresAt| &&
      stats.identifiable ==
        |set k | k in db.rows && Shown(db, k, f, now) && db.rows[k].restrictionReference.Some?|
  {
    var keys := Selected(db, Filter(archived, None, None), now);
    forall k: Key ensures k in keys <==> Shown(db, k, Filter(archived, None, None), now) {
      SelectedAreShown(db, Filter(archived, None, None), now, k);
    }
    assert WithStatus(db, keys, Suppressed) ==
           set k | k in db.rows && Shown(db, k, Filter(archived, None, None), now) && db.rows[k].status.Suppressed?;
    assert WithEvidence(db, keys, now) ==
           set k | k in db.rows && Shown(db, k, Filter(archived, None, None), now) && k in db.evidence &&
                   now < db.evidence[k].expiresAt;
    assert WithIdentity(db, keys) ==
           set k | k in db.rows && Shown(db, k, Filter(archived, None, None), now) &&
                   db.rows[k].restrictionReference.Some?;
    var reasons := CountReasons(db, keys, now);
    var reviewable, identifiable := WithEvidence(db, keys, now), WithIdentity(db, keys);
    SubsetIsSmaller(reviewable, keys);
    SubsetIsSmaller(identifiable, keys);
    EveryRestrictionHasOneStatus(db, archived, now);
    forall i | 0 <= i < |reasons|
      ensures reasons[i].count == |Selected(db, Filter(archived, Some(reasons[i].reason), None), now)|
    {
      ReasonFilterMatchesCount(db, archived, reasons[i].reason, now);
    }
    forall reason: string | Selected(db, Filter(archived, Some(reason), None), now) != {}
      ensures Counted(reasons, reason)
    {
      var k :| k in Selected(db, Filter(archived, Some(reason), None), now);
      assert k in keys && Reason(db, k, now) == reason;
    }
    var quarantined, suppressed := |WithStatus(db, keys, Quarantined)|, |WithStatus(db, keys, Suppressed)|;
    stats := Statistics(quarantined, suppressed, |reviewable|, |identifiable|,
                        quarantined + suppressed - |reviewable|, quarantined + suppressed - |identifiable|, reasons);
  }
}
