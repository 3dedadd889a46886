/** The outbound quota over the letters that were really sent: whatever order messages, timers, maintenance and
    erasures come in, no hour holds more than the caps. */
module Spending {
  import opened Base
  import opened Tables
  import opened StoreSpec
  import opened Telegram
  import opened Outbound
  import Retention

  // ---------------------------------------------------------------- one claim

  /** A claim drops what is older than an hour and records its own answer. */
  ghost predicate Claims(q: Quota, k: Key, challenge: bool, granted: bool, table: seq<OutboundRow>,
                         table': seq<OutboundRow>, now: Time)
  {
    granted == Free(q, OutboundSince(table, now - 3600), k, challenge, now) &&
    table' == OutboundSince(table, now - 3600) + [OutboundRow(Some(k),
      if challenge then (if granted then ChallengeSent else ChallengeRejected)
      else if granted then NoticeSent else NoticeRejected, now)]
  }

  /** One claim, and the letter sent if it was granted and got through; the test sender needs no slot. */
  ghost predicate Spends(q: Quota, test: bool, k: Key, challenge: bool, table: seq<OutboundRow>,
                         table': seq<OutboundRow>, sent: seq<Letter>, sent': seq<Letter>, now: Time)
  {
    var granted := Free(q, OutboundSince(table, now - 3600), k, challenge, now);
    (if test then table' == table else Claims(q, k, challenge, granted, table, table', now)) &&
    (sent' == sent || ((test || granted) && sent' == sent + [Letter(k, challenge, now)]))
  }

  /** At most one claim. */
  ghost predicate Visits(q: Quota, test: bool, k: Key, table: seq<OutboundRow>, table': seq<OutboundRow>,
                         sent: seq<Letter>, sent': seq<Letter>, now: Time)
  {
    (table' == table && sent' == sent) ||
    Spends(q, test, k, true, table, table', sent, sent', now) ||
    Spends(q, test, k, false, table, table', sent, sent', now)
  }

  /** After a claim each count of the last hour is one higher exactly if the claim was granted and belongs to it. */
  lemma ClaimRaises(q: Quota, k: Key, challenge: bool, granted: bool, table: seq<OutboundRow>,
                    table': seq<OutboundRow>, from: Time, now: Time, s: Key)
    requires Claims(q, k, challenge, granted, table, table', now) && now - 3600 <= from <= now
    ensures Tally(table', Accepted, from, None) == Tally(table, Accepted, from, None) + (if granted then 1 else 0)
    ensures Tally(table', Challenges, from, None) ==
            Tally(table, Challenges, from, None) + (if granted && challenge then 1 else 0)
    ensures Tally(table', NoticesOf(s), from, None) ==
            Tally(table, NoticesOf(s), from, None) + (if granted && !challenge && s == k then 1 else 0)
  {
    var kept := OutboundSince(table, now - 3600);
    var row := table'[|kept|];
    TallyIgnoresOld(table, Accepted, now - 3600, from, None);
    TallyIgnoresOld(table, Challenges, now - 3600, from, None);
    TallyIgnoresOld(table, NoticesOf(s), now - 3600, from, None);
    TallyAppend(kept, row, Accepted, from, None);
    TallyAppend(kept, row, Challenges, from, None);
    TallyAppend(kept, row, NoticesOf(s), from, None);
  }

  // ---------------------------------------------------------------- runs

  datatype Ledger = Ledger(table: seq<OutboundRow>, sent: seq<Letter>)

  /** A message or a timer is handled; or rows are removed: those of senders that are erased, with or without
      what is older than an hour. */
  datatype Event = Visited(sender: Key, now: Time) | Removed(gone: set<Key>, now: Time)

  ghost predicate Happens(q: Quota, test: Option<Key>, before: Ledger, event: Event, after: Ledger) {
    match event
    case Visited(k, now) => Visits(q, test == Some(k), k, before.table, after.table, before.sent, after.sent, now)
    case Removed(gone, now) =>
      after.sent == before.sent &&
      (after.table == OutboundWithout(before.table, gone) ||
       after.table == OutboundWithout(OutboundSince(before.table, now - 3600), gone))
  }

  /** Any order of such events, under a clock that never goes back. */
  ghost predicate Run(q: Quota, test: Option<Key>, ledgers: seq<Ledger>, events: seq<Event>) {
    |ledgers| == |events| + 1 &&
    (forall i :: 0 <= i < |events| ==> Happens(q, test, ledgers[i], events[i], ledgers[i + 1])) &&
    (forall i, j :: 0 <= i < j < |events| ==> events[i].now <= events[j].now)
  }

  /** The test sender and whoever is erased are outside the promise. */
  ghost predicate Outside(test: Option<Key>, events: seq<Event>, outside: set<Key>) {
    (test.Some? ==> test.value in outside) &&
    forall i :: 0 <= i < |events| && events[i].Removed? ==> events[i].gone <= outside
  }

  // ---------------------------------------------------------------- counting letters

  predicate Belongs(kind: Kind, letter: Letter) {
    match kind
    case Accepted => true
    case Challenges => letter.prompt
    case NoticesOf(s) => !letter.prompt && letter.to == s
    case Unreserved => !letter.prompt
  }

  predicate Falls(letter: Letter, from: Time, to: Option<Time>) {
    from <= letter.at && (to.Some? ==> letter.at <= to.value)
  }

  /** The letters of one kind in a stretch of time, by their position. */
  function Letters(sent: seq<Letter>, kind: Kind, from: Time, to: Option<Time>, outside: set<Key>): set<nat> {
    set i: nat | i < |sent| && Belongs(kind, sent[i]) && Falls(sent[i], from, to) && sent[i].to !in outside
  }

  /** One letter more counts once, where it belongs. */
  lemma LettersAppend(sent: seq<Letter>, letter: Letter, kind: Kind, from: Time, to: Option<Time>, outside: set<Key>)
    ensures |Letters(sent + [letter], kind, from, to, outside)| == |Letters(sent, kind, from, to, outside)| +
            (if Belongs(kind, letter) && Falls(letter, from, to) && letter.to !in outside then 1 else 0)
  {
    var before, after := Letters(sent, kind, from, to, outside), Letters(sent + [letter], kind, from, to, outside);
    var counts := Belongs(kind, letter) && Falls(letter, from, to) && letter.to !in outside;
    forall i: nat ensures i in after <==> i in before || (counts && i == |sent|) {
      if i < |sent| { assert (sent + [letter])[i] == sent[i]; }
    }
    if counts {
      assert after == before + {|sent|};
    } else {
      assert after == before;
    }
  }

  lemma LettersWithin(sent: seq<Letter>, kind: Kind, from: Time, to: Option<Time>, outside: set<Key>)
    ensures |Letters(sent, kind, from, to, outside)| <= |Letters(sent, kind, from, None, outside)|
  {
    SubsetIsSmaller(Letters(sent, kind, from, to, outside), Letters(sent, kind, from, None, outside));
  }

  lemma LettersLater(sent: seq<Letter>, kind: Kind, from: Time, later: Time, outside: set<Key>)
    requires from <= later
    ensures |Letters(sent, kind, later, None, outside)| <= |Letters(sent, kind, from, None, outside)|
  {
    SubsetIsSmaller(Letters(sent, kind, later, None, outside), Letters(sent, kind, from, None, outside));
  }

  // ---------------------------------------------------------------- removal and counting commute

  lemma {:induction false} WithoutAppend(rows: seq<OutboundRow>, row: OutboundRow, gone: set<Key>)
    ensures OutboundWithout(rows + [row], gone) ==
      if SentTo(row, gone) then OutboundWithout(rows, gone) else OutboundWithout(rows, gone) + [row]
  {
    assert (rows + [row])[..|rows|] == rows;
  }

  lemma {:induction false} WithoutTwice(rows: seq<OutboundRow>, gone: set<Key>, outside: set<Key>)
    requires gone <= outside
    ensures OutboundWithout(OutboundWithout(rows, gone), outside) == OutboundWithout(rows, outside)
    decreases |rows|
  {
    if rows != [] {
      var rest, last := rows[..|rows| - 1], rows[|rows| - 1];
      WithoutTwice(rest, gone, outside);
      assert rest + [last] == rows;
      WithoutAppend(rest, last, gone);
      WithoutAppend(rest, last, outside);
      WithoutAppend(OutboundWithout(rest, gone), last, outside);
    }
  }

  lemma {:induction false} WithoutSince(rows: seq<OutboundRow>, cutoff: Time, gone: set<Key>)
    ensures OutboundWithout(OutboundSince(rows, cutoff), gone) == OutboundSince(OutboundWithout(rows, gone), cutoff)
    decreases |rows|
  {
    if rows != [] {
      var rest, last := rows[..|rows| - 1], rows[|rows| - 1];
      WithoutSince(rest, cutoff, gone);
      assert rest + [last] == rows;
      WithoutAppend(rest, last, gone);
      SinceSnoc(rows, cutoff);
      WithoutAppend(OutboundSince(rest, cutoff), last, gone);
      SinceSnoc(OutboundWithout(rest, gone) + [last], cutoff);
    }
  }

  lemma {:induction false} WithoutShrinks(rows: seq<OutboundRow>, kind: Kind, from: Time, gone: set<Key>)
    ensures Tally(OutboundWithout(rows, gone), kind, from, None) <= Tally(rows, kind, from, None)
    decreases |rows|
  {
    if rows != [] {
      var rest, last := rows[..|rows| - 1], rows[|rows| - 1];
      WithoutShrinks(rest, kind, from, gone);
      assert rest + [last] == rows;
      WithoutAppend(rest, last, gone);
      TallyAppend(OutboundWithout(rest, gone), last, kind, from, None);
    }
  }

  // ---------------------------------------------------------------- the invariant

  /** Every letter of the last hour has its row. */
  ghost predicate Recorded(ledger: Ledger, outside: set<Key>, clock: Time) {
    forall kind, from :: from >= clock - 3600 ==> Covered(ledger, outside, kind, from)
  }

  ghost predicate Covered(ledger: Ledger, outside: set<Key>, kind: Kind, from: Time) {
    |Letters(ledger.sent, kind, from, None, outside)| <=
    Tally(OutboundWithout(ledger.table, outside), kind, from, None)
  }

  /** No hour holds more letters than its cap. */
  ghost predicate Capped(q: Quota, sent: seq<Letter>, outside: set<Key>) {
    forall kind, end :: CappedIn(q, sent, outside, kind, end)
  }

  ghost predicate CappedIn(q: Quota, sent: seq<Letter>, outside: set<Key>, kind: Kind, end: Time) {
    |Letters(sent, kind, end - 3600, Some(end), outside)| <=
    match kind
    case Accepted => q.limit
    case Challenges => q.limit - q.reserve
    case NoticesOf(_) => q.perSender
    case Unreserved => q.limit
  }

  lemma RemovalKeeps(before: Ledger, after: Ledger, gone: set<Key>, outside: set<Key>, clock: Time, now: Time)
    requires Recorded(before, outside, clock) && clock <= now && gone <= outside
    requires after.sent == before.sent
    requires after.table == OutboundWithout(before.table, gone) ||
             after.table == OutboundWithout(OutboundSince(before.table, now - 3600), gone)
    ensures Recorded(after, outside, now)
  {
    forall kind, from | from >= now - 3600 ensures Covered(after, outside, kind, from) {
      assert Covered(before, outside, kind, from);
      WithoutTwice(before.table, gone, outside);
      WithoutTwice(OutboundSince(before.table, now - 3600), gone, outside);
      WithoutSince(before.table, now - 3600, outside);
      TallyIgnoresOld(OutboundWithout(before.table, outside), kind, now - 3600, from, None);
    }
  }

  lemma CoveredByKept(before: Ledger, outside: set<Key>, kind: Kind, from: Time, now: Time)
    requires Covered(before, outside, kind, from) && from >= now - 3600
    ensures |Letters(before.sent, kind, from, None, outside)| <=
            Tally(OutboundWithout(OutboundSince(before.table, now - 3600), outside), kind, from, None)
  {
    WithoutSince(before.table, now - 3600, outside);
    TallyIgnoresOld(OutboundWithout(before.table, outside), kind, now - 3600, from, None);
  }

  /** A claim keeps the record: the letter, if one is sent, has its row. */
  lemma ClaimCovers(q: Quota, k: Key, challenge: bool, before: Ledger, after: Ledger, outside: set<Key>, kind: Kind,
                    from: Time, now: Time)
    requires Spends(q, false, k, challenge, before.table, after.table, before.sent, after.sent, now)
    requires Covered(before, outside, kind, from) && from >= now - 3600
    ensures Covered(after, outside, kind, from)
  {
    var kept := OutboundSince(before.table, now - 3600);
    var row := after.table[|kept|];
    CoveredByKept(before, outside, kind, from, now);
    WithoutAppend(kept, row, outside);
    TallyAppend(OutboundWithout(kept, outside), row, kind, from, None);
    LettersAppend(before.sent, Letter(k, challenge, now), kind, from, None, outside);
  }

  /** A letter sent had room in every hour it falls into. */
  lemma LetterFits(q: Quota, k: Key, challenge: bool, before: Ledger, outside: set<Key>, kind: Kind, end: Time,
                   now: Time)
    requires Valid(q) && CappedIn(q, before.sent, outside, kind, end) && Covered(before, outside, kind, now - 3600)
    requires Free(q, OutboundSince(before.table, now - 3600), k, challenge, now)
    ensures CappedIn(q, before.sent + [Letter(k, challenge, now)], outside, kind, end)
  {
    var letter, kept := Letter(k, challenge, now), OutboundSince(before.table, now - 3600);
    LettersAppend(before.sent, letter, kind, end - 3600, Some(end), outside);
    if Belongs(kind, letter) && Falls(letter, end - 3600, Some(end)) {
      LettersWithin(before.sent, kind, end - 3600, Some(end), outside);
      LettersLater(before.sent, kind, now - 3600, end - 3600, outside);
      CoveredByKept(before, outside, kind, now - 3600, now);
      WithoutShrinks(kept, kind, now - 3600, outside);
      TallyMonotone(kept, kind, Accepted, now - 3600, None, now - 3600);
    }
  }

  lemma ClaimKeeps(q: Quota, k: Key, challenge: bool, before: Ledger, after: Ledger, outside: set<Key>, clock: Time,
                   now: Time)
    requires Valid(q) && Spends(q, false, k, challenge, before.table, after.table, before.sent, after.sent, now)
    requires Recorded(before, outside, clock) && Capped(q, before.sent, outside) && clock <= now
    ensures Recorded(after, outside, now) && Capped(q, after.sent, outside)
  {
    forall kind, from | from >= now - 3600 ensures Covered(after, outside, kind, from) {
      ClaimCovers(q, k, challenge, before, after, outside, kind, from, now);
    }
    forall kind, end ensures CappedIn(q, after.sent, outside, kind, end) {
      assert CappedIn(q, before.sent, outside, kind, end) && Covered(before, outside, kind, now - 3600);
      if after.sent != before.sent {
        LetterFits(q, k, challenge, before, outside, kind, end, now);
      }
    }
  }

  /** Letters to the test sender are outside the promise. */
  lemma TestKeeps(q: Quota, k: Key, challenge: bool, before: Ledger, after: Ledger, outside: set<Key>, clock: Time,
                  now: Time)
    requires Spends(q, true, k, challenge, before.table, after.table, before.sent, after.sent, now) && k in outside
    requires Recorded(before, outside, clock) && Capped(q, before.sent, outside) && clock <= now
    ensures Recorded(after, outside, now) && Capped(q, after.sent, outside)
  {
    var letter := Letter(k, challenge, now);
    forall kind, from | from >= now - 3600 ensures Covered(after, outside, kind, from) {
      assert Covered(before, outside, kind, from);
      LettersAppend(before.sent, letter, kind, from, None, outside);
    }
    forall kind, end ensures CappedIn(q, after.sent, outside, kind, end) {
      assert CappedIn(q, before.sent, outside, kind, end);
      LettersAppend(before.sent, letter, kind, end - 3600, Some(end), outside);
    }
  }

  lemma EventKeeps(q: Quota, test: Option<Key>, before: Ledger, event: Event, after: Ledger, outside: set<Key>,
                   clock: Time)
    requires Valid(q) && Happens(q, test, before, event, after) && clock <= event.now
    requires test.Some? ==> test.value in outside
    requires event.Removed? ==> event.gone <= outside
    requires Recorded(before, outside, clock) && Capped(q, before.sent, outside)
    ensures Recorded(after, outside, event.now) && Capped(q, after.sent, outside)
  {
    match event
    case Removed(gone, now) => RemovalKeeps(before, after, gone, outside, clock, now);
    case Visited(k, now) =>
      if after != before {
        var challenge := Spends(q, test == Some(k), k, true, before.table, after.table, before.sent, after.sent, now);
        if test == Some(k) {
          TestKeeps(q, k, challenge, before, after, outside, clock, now);
        } else {
          ClaimKeeps(q, k, challenge, before, after, outside, clock, now);
        }
      } else {
        forall kind, from | from >= now - 3600 ensures Covered(after, outside, kind, from) {
          assert Covered(before, outside, kind, from);
        }
      }
  }

  lemma {:induction false} RunKeeps(q: Quota, test: Option<Key>, ledgers: seq<Ledger>, events: seq<Event>,
                                    outside: set<Key>, clock: Time)
    requires Valid(q) && Run(q, test, ledgers, events) && Outside(test, events, outside)
    requires events != [] ==> clock <= events[0].now
    requires Recorded(ledgers[0], outside, clock) && Capped(q, ledgers[0].sent, outside)
    ensures Capped(q, ledgers[|events|].sent, outside)
    decreases |events|
  {
    if events != [] {
      EventKeeps(q, test, ledgers[0], events[0], ledgers[1], outside, clock);
      assert Run(q, test, ledgers[1..], events[1..]);
      RunKeeps(q, test, ledgers[1..], events[1..], outside, events[0].now);
    }
  }

  /** Before anything is sent there is nothing to record. */
  lemma NothingSent(q: Quota, table: seq<OutboundRow>, outside: set<Key>, clock: Time)
    requires Valid(q)
    ensures Recorded(Ledger(table, []), outside, clock) && Capped(q, [], outside)
  {
    forall kind, end ensures CappedIn(q, [], outside, kind, end) {
      assert Letters([], kind, end - 3600, Some(end), outside) == {};
    }
    forall kind, from ensures Covered(Ledger(table, []), outside, kind, from) {
      assert Letters([], kind, from, None, outside) == {};
    }
  }

  /** From any table, in any order of messages, timers, maintenance passes and erasures: in every hour at most `limit`
      letters are sent, at most `limit - reserve` of them prompts, and at most `perSender` notices to one sender -
      not counting the test sender, who needs no slot, and senders whose rows are erased in the run. */
  lemma EveryHourIsCapped(q: Quota, test: Option<Key>, ledgers: seq<Ledger>, events: seq<Event>, outside: set<Key>,
                          end: Time, s: Key)
    requires Valid(q) && Run(q, test, ledgers, events) && Outside(test, events, outside) && ledgers[0].sent == []
    ensures var sent := ledgers[|events|].sent;
      |set i: nat | i < |sent| && end - 3600 <= sent[i].at <= end && sent[i].to !in outside| <= q.limit &&
      |set i: nat | i < |sent| && end - 3600 <= sent[i].at <= end && sent[i].to !in outside && sent[i].prompt| <=
        q.limit - q.reserve &&
      (s !in outside ==>
        |set i: nat | i < |sent| && end - 3600 <= sent[i].at <= end && sent[i].to == s && !sent[i].prompt| <=
          q.perSender)
  {
    var clock := if events == [] then 0 else events[0].now;
    NothingSent(q, ledgers[0].table, outside, clock);
    assert ledgers[0] == Ledger(ledgers[0].table, []);
    RunKeeps(q, test, ledgers, events, outside, clock);
    var sent := ledgers[|events|].sent;
    assert CappedIn(q, sent, outside, Accepted, end) && CappedIn(q, sent, outside, Challenges, end) &&
           CappedIn(q, sent, outside, NoticesOf(s), end);
    assert Letters(sent, Accepted, end - 3600, Some(end), outside) ==
           set i: nat | i < |sent| && end - 3600 <= sent[i].at <= end && sent[i].to !in outside;
    assert Letters(sent, Challenges, end - 3600, Some(end), outside) ==
           set i: nat | i < |sent| && end - 3600 <= sent[i].at <= end && sent[i].to !in outside && sent[i].prompt;
    if s !in outside {
      assert Letters(sent, NoticesOf(s), end - 3600, Some(end), outside) ==
             set i: nat | i < |sent| && end - 3600 <= sent[i].at <= end && sent[i].to == s && !sent[i].prompt;
    }
  }

  /** A maintenance pass and a forgotten restriction are such removals. */
  lemma PassRemoves(q: Quota, test: Option<Key>, db: Db, days: nat, archivedDays: Option<nat>,
                    permitted: Option<set<Key>>, now: Time, sent: seq<Letter>)
    ensures var db' := StoreSpec.Prune(db, days, archivedDays, permitted, now);
      Happens(q, test, Ledger(db.events.outbound, sent),
        Removed(Retention.Gone(db, archivedDays, permitted, now), now), Ledger(db'.events.outbound, sent))
  {
    Retention.PrunedEvents(db, days, archivedDays, permitted, now, Retention.Gone(db, archivedDays, permitted, now),
      FreshEvents(db.events, now, now - days * DAY));
  }

  lemma ForgettingRemoves(q: Quota, test: Option<Key>, db: Db, k: Key, archivedBefore: Option<Time>, now: Time,
                          sent: seq<Letter>)
    requires Forgettable(db, k, archivedBefore)
    ensures Happens(q, test, Ledger(db.events.outbound, sent), Removed({k}, now),
      Ledger(Forget(db, k, archivedBefore).events.outbound, sent))
  {}

  /** The rows a count ranges over when those sent to erased senders are gone, by their old position. */
  function Remaining(rows: seq<OutboundRow>, kind: Kind, from: Time, gone: set<Key>): set<nat> {
    set i: nat | i < |rows| && rows[i].at >= from && Counts(kind, rows[i]) && !SentTo(rows[i], gone)
  }

  lemma RemainingAppend(rows: seq<OutboundRow>, row: OutboundRow, kind: Kind, from: Time, gone: set<Key>)
    ensures |Remaining(rows + [row], kind, from, gone)| == |Remaining(rows, kind, from, gone)| +
            (if row.at >= from && Counts(kind, row) && !SentTo(row, gone) then 1 else 0)
  {
    var before, after := Remaining(rows, kind, from, gone), Remaining(rows + [row], kind, from, gone);
    var counts := row.at >= from && Counts(kind, row) && !SentTo(row, gone);
    forall i: nat ensures i in after <==> i in before || (counts && i == |rows|) {
      if i < |rows| { assert (rows + [row])[i] == rows[i]; }
    }
    if counts {
      assert after == before + {|rows|};
    } else {
      assert after == before;
    }
  }

  lemma {:induction false} WithoutCounts(rows: seq<OutboundRow>, kind: Kind, from: Time, gone: set<Key>)
    ensures Tally(OutboundWithout(rows, gone), kind, from, None) == |Remaining(rows, kind, from, gone)|
    decreases |rows|
  {
    if rows == [] {
      assert Remaining(rows, kind, from, gone) == {};
    } else {
      var rest, last := rows[..|rows| - 1], rows[|rows| - 1];
      WithoutCounts(rest, kind, from, gone);
      assert rest + [last] == rows;
      WithoutAppend(rest, last, gone);
      TallyAppend(OutboundWithout(rest, gone), last, kind, from, None);
      RemainingAppend(rest, last, kind, from, gone);
    }
  }

  /** After an erasure a claim is granted exactly if what was sent to others within the hour leaves room; so a refused
      one becomes granted exactly if it did and what was sent to the erased senders made the difference. */
  lemma ErasureFreesExactlyWhen(q: Quota, rows: seq<OutboundRow>, gone: set<Key>, k: Key, challenge: bool, now: Time)
    requires Valid(q)
    ensures Free(q, OutboundWithout(rows, gone), k, challenge, now) <==>
      var others := set i: nat | i < |rows| && rows[i].at >= now - 3600 && !SentTo(rows[i], gone) &&
                                 rows[i].category in {Legacy, ChallengeSent, NoticeSent};
      var notices := set i: nat | i < |rows| && rows[i].at >= now - 3600 && !SentTo(rows[i], gone) &&
                                  rows[i].category == NoticeSent && rows[i].sender == Some(k);
      if challenge then |others| < q.limit - q.reserve else |others| < q.limit && |notices| < q.perSender
  {
    WithoutCounts(rows, Accepted, now - HOUR, gone);
    WithoutCounts(rows, NoticesOf(k), now - HOUR, gone);
    assert Remaining(rows, Accepted, now - HOUR, gone) ==
           set i: nat | i < |rows| && rows[i].at >= now - 3600 && !SentTo(rows[i], gone) &&
                        rows[i].category in {Legacy, ChallengeSent, NoticeSent};
    assert Remaining(rows, NoticesOf(k), now - HOUR, gone) ==
           set i: nat | i < |rows| && rows[i].at >= now - 3600 && !SentTo(rows[i], gone) &&
                        rows[i].category == NoticeSent && rows[i].sender == Some(k);
  }

  /** The exception is real: forgetting a sender forgets what it was sent, and the next claim is granted in the same
      hour. */
  lemma ErasureFreesASlot()
    ensures var q, sent := Quota(1, 0, 1), [OutboundRow(Some(7), ChallengeSent, 100)];
      !Free(q, OutboundSince(sent, 101 - 3600), 8, true, 101) &&
      Free(q, OutboundSince(OutboundWithout(sent, {7}), 101 - 3600), 8, true, 101)
  {
    var sent := [OutboundRow(Some(7), ChallengeSent, 100)];
    assert sent[..0] == [];
    assert OutboundWithout(sent, {7}) == [];
    assert OutboundSince(sent, 101 - 3600) == sent;
  }
}
