/** The hourly outbound quota: a table that forgets old rows decides like the full history. */
module Outbound {
  import opened Base
  import opened Tables
  import opened StoreSpec

  datatype Quota = Quota(limit: int, reserve: int, perSender: int)

  /** The configurations that `claim_outbound_slot` does not refuse with an error. */
  predicate Valid(q: Quota) {
    q.limit >= 1 && 0 <= q.reserve < q.limit && q.perSender >= 1
  }

  // What a count ranges over.
  datatype Kind = Accepted | Challenges | NoticesOf(sender: Key) | Unreserved

  predicate Counts(kind: Kind, row: OutboundRow) {
    match kind
    case Accepted => row.category.Legacy? || row.category.ChallengeSent? || row.category.NoticeSent?
    case Challenges => row.category.ChallengeSent?
    case NoticesOf(s) => row.category.NoticeSent? && row.sender == Some(s)
    case Unreserved => row.category.Legacy? || row.category.NoticeSent?
  }

  predicate Within(row: OutboundRow, from: Time, to: Option<Time>) {
    from <= row.at && (to.Some? ==> row.at <= to.value)
  }

  /** SELECT COUNT(*) of one kind since `from`, optionally up to `to`. */
  function Tally(rows: seq<OutboundRow>, kind: Kind, from: Time, to: Option<Time>): nat {
    if rows == [] then 0
    else Tally(rows[..|rows| - 1], kind, from, to) +
         (if Counts(kind, rows[|rows| - 1]) && Within(rows[|rows| - 1], from, to) then 1 else 0)
  }

  /** Whether a slot is free, judged on the given rows. */
  predicate Free(q: Quota, rows: seq<OutboundRow>, sender: Key, challenge: bool, now: Time) {
    var total := Tally(rows, Accepted, now - HOUR, None);
    total < q.limit &&
    (if challenge then total < q.limit - q.reserve
     else Tally(rows, NoticesOf(sender), now - HOUR, None) < q.perSender)
  }

  /** The rows a count ranges over, by their position. */
  function Counted(rows: seq<OutboundRow>, kind: Kind, from: Time): set<nat> {
    set i: nat | i < |rows| && rows[i].at >= from && Counts(kind, rows[i])
  }

  lemma {:induction false} TallyIsCount(rows: seq<OutboundRow>, kind: Kind, from: Time)
    ensures Tally(rows, kind, from, None) == |Counted(rows, kind, from)|
    decreases |rows|
  {
    if rows == [] {
      assert Counted(rows, kind, from) == {};
    } else {
      var rest, last := rows[..|rows| - 1], rows[|rows| - 1];
      TallyIsCount(rest, kind, from);
      if last.at >= from && Counts(kind, last) {
        assert Counted(rows, kind, from) == Counted(rest, kind, from) + {|rest|};
      } else {
        assert Counted(rows, kind, from) == Counted(rest, kind, from);
      }
    }
  }

  /** A prompt gets a slot exactly while fewer than `limit - reserve` messages were accepted within the hour, a notice
      exactly while fewer than `limit` were and the sender had fewer than its own number of notices. */
  lemma FreeExactlyWhen(q: Quota, rows: seq<OutboundRow>, sender: Key, challenge: bool, now: Time)
    requires Valid(q)
    ensures Free(q, rows, sender, challenge, now) <==>
      var accepted := set i: nat | i < |rows| && rows[i].at >= now - 3600 &&
                                   rows[i].category in {Legacy, ChallengeSent, NoticeSent};
      var notices := set i: nat | i < |rows| && rows[i].at >= now - 3600 &&
                                  rows[i].category == NoticeSent && rows[i].sender == Some(sender);
      if challenge then |accepted| < q.limit - q.reserve else |accepted| < q.limit && |notices| < q.perSender
  {
    TallyIsCount(rows, Accepted, now - HOUR);
    TallyIsCount(rows, NoticesOf(sender), now - HOUR);
    assert Counted(rows, Accepted, now - HOUR) ==
           set i: nat | i < |rows| && rows[i].at >= now - 3600 &&
                        rows[i].category in {Legacy, ChallengeSent, NoticeSent};
    assert Counted(rows, NoticesOf(sender), now - HOUR) ==
           set i: nat | i < |rows| && rows[i].at >= now - 3600 &&
                        rows[i].category == NoticeSent && rows[i].sender == Some(sender);
  }

  function Entry(sender: Key, challenge: bool, granted: bool, now: Time): OutboundRow {
    OutboundRow(Some(sender),
                if challenge then (if granted then ChallengeSent else ChallengeRejected)
                else if granted then NoticeSent else NoticeRejected,
                now)
  }

  // ---------------------------------------------------------------- histories

  datatype Use = Claim(sender: Key, challenge: bool, now: Time) | Prune(now: Time)

  /** The table as the program keeps it, from any rows it starts with: every use first deletes what is older
      than an hour. */
  function Table(q: Quota, start: seq<OutboundRow>, uses: seq<Use>): seq<OutboundRow> {
    if uses == [] then start
    else
      var before, last := Table(q, start, uses[..|uses| - 1]), uses[|uses| - 1];
      var kept := OutboundSince(before, last.now - HOUR);
      if last.Prune? then kept
      else kept + [Entry(last.sender, last.challenge, Free(q, kept, last.sender, last.challenge, last.now), last.now)]
  }

  /** The answer to the last claim. */
  predicate Answer(q: Quota, start: seq<OutboundRow>, uses: seq<Use>)
    requires uses != [] && uses[|uses| - 1].Claim?
  {
    var last := uses[|uses| - 1];
    Free(q, OutboundSince(Table(q, start, uses[..|uses| - 1]), last.now - HOUR), last.sender, last.challenge, last.now)
  }

  /** Those rows and every row ever inserted; nothing is deleted. */
  function History(q: Quota, start: seq<OutboundRow>, uses: seq<Use>): seq<OutboundRow> {
    if uses == [] then start
    else
      var before, last := History(q, start, uses[..|uses| - 1]), uses[|uses| - 1];
      if last.Prune? then before
      else before + [Entry(last.sender, last.challenge, Answer(q, start, uses), last.now)]
  }

  ghost predicate Monotone(uses: seq<Use>) {
    forall i, j :: 0 <= i < j < |uses| ==> uses[i].now <= uses[j].now
  }

  // ---------------------------------------------------------------- forgetting is harmless

  lemma {:induction false} SinceTwice(rows: seq<OutboundRow>, a: Time, b: Time)
    requires a <= b
    ensures OutboundSince(OutboundSince(rows, a), b) == OutboundSince(rows, b)
    decreases |rows|
  {
    if rows != [] {
      var rest, last := rows[..|rows| - 1], rows[|rows| - 1];
      SinceTwice(rest, a, b);
      if last.at < a {
        assert OutboundSince(rows, a) == OutboundSince(rest, a);
        assert OutboundSince(rows, b) == OutboundSince(rest, b);
      } else {
        var kept := OutboundSince(rest, a) + [last];
        assert kept[..|kept| - 1] == OutboundSince(rest, a);
      }
    }
  }

  /** Rows before the window never count. */
  lemma {:induction false} TallyIgnoresOld(rows: seq<OutboundRow>, kind: Kind, cutoff: Time, from: Time,
      to: Option<Time>)
    requires cutoff <= from
    ensures Tally(OutboundSince(rows, cutoff), kind, from, to) == Tally(rows, kind, from, to)
    decreases |rows|
  {
    if rows != [] {
      var rest, last := rows[..|rows| - 1], rows[|rows| - 1];
      TallyIgnoresOld(rest, kind, cutoff, from, to);
      SinceSnoc(rows, cutoff);
      if last.at >= cutoff {
        TallyAppend(OutboundSince(rest, cutoff), last, kind, from, to);
      }
    }
  }

  lemma SinceSnoc(rows: seq<OutboundRow>, cutoff: Time)
    requires rows != []
    ensures OutboundSince(rows, cutoff) ==
      if rows[|rows| - 1].at < cutoff then OutboundSince(rows[..|rows| - 1], cutoff)
      else OutboundSince(rows[..|rows| - 1], cutoff) + [rows[|rows| - 1]]
  {}

  /** A decision on rows cut off no later than an hour ago is the decision on all rows. */
  lemma FreeIgnoresOld(q: Quota, rows: seq<OutboundRow>, sender: Key, challenge: bool, now: Time)
    ensures Free(q, OutboundSince(rows, now - HOUR), sender, challenge, now) == Free(q, rows, sender, challenge, now)
  {
    TallyIgnoresOld(rows, Accepted, now - HOUR, now - HOUR, None);
    TallyIgnoresOld(rows, NoticesOf(sender), now - HOUR, now - HOUR, None);
  }

  lemma {:induction false} SinceAppend(rows: seq<OutboundRow>, row: OutboundRow, cutoff: Time)
    ensures OutboundSince(rows + [row], cutoff) == OutboundSince(rows, cutoff) + (if row.at < cutoff then [] else [row])
  {
    assert (rows + [row])[..|rows|] == rows;
  }

  /** Under a clock that never goes back, the stored table is exactly the last hour of the history. */
  lemma {:induction false} TableIsLastHour(q: Quota, start: seq<OutboundRow>, uses: seq<Use>)
    requires Monotone(uses) && uses != []
    ensures Table(q, start, uses) == OutboundSince(History(q, start, uses), uses[|uses| - 1].now - HOUR)
    decreases |uses|
  {
    var before, last := uses[..|uses| - 1], uses[|uses| - 1];
    if before == [] {
      assert History(q, start, before) == start && Table(q, start, before) == start;
    } else {
      TableIsLastHour(q, start, before);
      SinceTwice(History(q, start, before), before[|before| - 1].now - HOUR, last.now - HOUR);
    }
    if last.Claim? {
      var row := Entry(last.sender, last.challenge, Answer(q, start, uses), last.now);
      SinceAppend(History(q, start, before), row, last.now - HOUR);
    }
  }

  /** Under such a clock every claim is answered as if nothing had ever been deleted. */
  lemma AnswersLikeFullHistory(q: Quota, start: seq<OutboundRow>, uses: seq<Use>)
    requires Monotone(uses) && uses != [] && uses[|uses| - 1].Claim?
    ensures var before, last := uses[..|uses| - 1], uses[|uses| - 1];
            Answer(q, start, uses) == Free(q, History(q, start, before), last.sender, last.challenge, last.now)
  {
    var before, last := uses[..|uses| - 1], uses[|uses| - 1];
    var cutoff := last.now - HOUR;
    if before != [] {
      TableIsLastHour(q, start, before);
      SinceTwice(History(q, start, before), before[|before| - 1].now - HOUR, cutoff);
    }
    FreeIgnoresOld(q, History(q, start, before), last.sender, last.challenge, last.now);
  }

  // ---------------------------------------------------------------- bounds

  /** The most that one hour may hold of each kind. */
  function Cap(q: Quota, kind: Kind): int {
    match kind
    case Accepted => q.limit
    case Challenges => q.limit - q.reserve
    case NoticesOf(_) => q.perSender
    case Unreserved => q.limit
  }

  lemma {:induction false} TallyMonotone(rows: seq<OutboundRow>, kind: Kind, wider: Kind, from: Time,
      to: Option<Time>, from': Time)
    requires from' <= from
    requires kind == wider || wider.Accepted?
    ensures Tally(rows, kind, from, to) <= Tally(rows, wider, from', None)
    decreases |rows|
  {
    if rows != [] { TallyMonotone(rows[..|rows| - 1], kind, wider, from, to, from'); }
  }

  lemma {:induction false} TallyAppend(rows: seq<OutboundRow>, row: OutboundRow, kind: Kind, from: Time,
      to: Option<Time>)
    ensures Tally(rows + [row], kind, from, to) ==
            Tally(rows, kind, from, to) + (if Counts(kind, row) && Within(row, from, to) then 1 else 0)
  {
    assert (rows + [row])[..|rows|] == rows;
  }

  /** A table that respects the caps over any time range, rows from before the categories included. */
  ghost predicate WithinCaps(q: Quota, rows: seq<OutboundRow>) {
    forall kind, from :: Tally(rows, kind, from, None) <= Cap(q, kind)
  }

  /** A granted claim had room for its own row in every count it belongs to. */
  lemma GrantedHadRoom(q: Quota, rows: seq<OutboundRow>, sender: Key, challenge: bool, now: Time, kind: Kind)
    requires Valid(q) && Free(q, rows, sender, challenge, now) && Counts(kind, Entry(sender, challenge, true, now))
    ensures Tally(rows, kind, now - HOUR, None) < Cap(q, kind)
  {
    TallyMonotone(rows, kind, Accepted, now - HOUR, None, now - HOUR);
  }

  /** In every hour of the whole history at most `limit` messages were accepted, at most `limit - reserve`
      challenges, and at most the per-sender number of notices for each sender. */
  lemma {:induction false} EveryHourIsBounded(q: Quota, start: seq<OutboundRow>, uses: seq<Use>, kind: Kind, end: Time)
    requires Valid(q) && Monotone(uses) && WithinCaps(q, start)
    ensures Tally(History(q, start, uses), kind, end - HOUR, Some(end)) <= Cap(q, kind)
    decreases |uses|
  {
    if uses == [] {
      TallyMonotone(start, kind, kind, end - HOUR, Some(end), end - HOUR);
    } else {
      var before, last := uses[..|uses| - 1], uses[|uses| - 1];
      EveryHourIsBounded(q, start, before, kind, end);
      if last.Claim? {
        var row := Entry(last.sender, last.challenge, Answer(q, start, uses), last.now);
        TallyAppend(History(q, start, before), row, kind, end - HOUR, Some(end));
        if Counts(kind, row) && Within(row, end - HOUR, Some(end)) {
          AnswersLikeFullHistory(q, start, uses);
          GrantedHadRoom(q, History(q, start, before), last.sender, last.challenge, last.now, kind);
          TallyMonotone(History(q, start, before), kind, kind, end - HOUR, Some(end), last.now - HOUR);
        }
      }
    }
  }

  lemma {:induction false} SinceShrinks(rows: seq<OutboundRow>, cutoff: Time, kind: Kind, from: Time)
    ensures Tally(OutboundSince(rows, cutoff), kind, from, None) <= Tally(rows, kind, from, None)
    decreases |rows|
  {
    if rows != [] {
      var rest, last := rows[..|rows| - 1], rows[|rows| - 1];
      SinceShrinks(rest, cutoff, kind, from);
      SinceSnoc(rows, cutoff);
      if last.at >= cutoff {
        TallyAppend(OutboundSince(rest, cutoff), last, kind, from, None);
      }
    }
  }

  lemma {:induction false} SinceIsRecent(rows: seq<OutboundRow>, cutoff: Time, kind: Kind, from: Time)
    requires from <= cutoff
    ensures var kept := OutboundSince(rows, cutoff);
            Tally(kept, kind, from, None) == Tally(kept, kind, cutoff, None)
    decreases |rows|
  {
    if rows != [] {
      var rest, last := rows[..|rows| - 1], rows[|rows| - 1];
      SinceIsRecent(rest, cutoff, kind, from);
      SinceSnoc(rows, cutoff);
      if last.at >= cutoff {
        TallyAppend(OutboundSince(rest, cutoff), last, kind, from, None);
        TallyAppend(OutboundSince(rest, cutoff), last, kind, cutoff, None);
      }
    }
  }

  /** Whatever the clock does, the rows still stored respect the same bounds, over any time range. */
  lemma {:induction false} StoredRowsAreBounded(q: Quota, start: seq<OutboundRow>, uses: seq<Use>, kind: Kind,
      from: Time)
    requires Valid(q) && WithinCaps(q, start)
    ensures Tally(Table(q, start, uses), kind, from, None) <= Cap(q, kind)
    decreases |uses|
  {
    if uses != [] {
      var before, last := Table(q, start, uses[..|uses| - 1]), uses[|uses| - 1];
      var cutoff := last.now - HOUR;
      var kept := OutboundSince(before, cutoff);
      StoredRowsAreBounded(q, start, uses[..|uses| - 1], kind, from);
      SinceShrinks(before, cutoff, kind, from);
      if last.Claim? {
        var granted := Free(q, kept, last.sender, last.challenge, last.now);
        TallyAppend(kept, Entry(last.sender, last.challenge, granted, last.now), kind, from, None);
        if granted && Counts(kind, Entry(last.sender, last.challenge, true, last.now)) {
          GrantedHadRoom(q, kept, last.sender, last.challenge, last.now, kind);
          TallyMonotone(kept, kind, kind, Max(from, cutoff), None, cutoff);
          if from < cutoff { SinceIsRecent(before, cutoff, kind, from); }
        }
      }
    }
  }

  /** So the table stays within the caps, and an empty one is. */
  lemma CapsAreKept(q: Quota, start: seq<OutboundRow>, uses: seq<Use>)
    requires Valid(q)
    ensures WithinCaps(q, [])
    ensures WithinCaps(q, start) ==> WithinCaps(q, Table(q, start, uses))
  {
    if WithinCaps(q, start) {
      forall kind, from ensures Tally(Table(q, start, uses), kind, from, None) <= Cap(q, kind) {
        StoredRowsAreBounded(q, start, uses, kind, from);
      }
    }
  }

  lemma {:induction false} AcceptedSplits(rows: seq<OutboundRow>, from: Time)
    ensures Tally(rows, Accepted, from, None) ==
            Tally(rows, Challenges, from, None) + Tally(rows, Unreserved, from, None)
    decreases |rows|
  {
    if rows != [] { AcceptedSplits(rows[..|rows| - 1], from); }
  }

  /** The reserve: whatever burst of challenges came before and whatever the clock did, a notice for a sender
      below its own limit is refused only when at least `reserve` other notices or legacy rows of the last
      hour are stored. */
  lemma NoticeRefusedOnlyAfterReserve(q: Quota, start: seq<OutboundRow>, uses: seq<Use>)
    requires Valid(q) && WithinCaps(q, start)
    requires uses != [] && uses[|uses| - 1].Claim? && !uses[|uses| - 1].challenge
    requires !Answer(q, start, uses)
    ensures var last := uses[|uses| - 1];
            var kept := OutboundSince(Table(q, start, uses[..|uses| - 1]), last.now - HOUR);
            Tally(kept, NoticesOf(last.sender), last.now - HOUR, None) >= q.perSender ||
            Tally(kept, Unreserved, last.now - HOUR, None) >= q.reserve
  {
    var before, last := Table(q, start, uses[..|uses| - 1]), uses[|uses| - 1];
    var cutoff := last.now - HOUR;
    var kept := OutboundSince(before, cutoff);
    StoredRowsAreBounded(q, start, uses[..|uses| - 1], Challenges, cutoff);
    SinceShrinks(before, cutoff, Challenges, cutoff);
    AcceptedSplits(kept, cutoff);
  }

  /** Rows from before the categories take part: here one of them alone uses up what a notice could have had. */
  lemma LegacyRowsUseTheReserve()
    ensures var q, start := Quota(1, 0, 5), [OutboundRow(None, Legacy, 0)];
            WithinCaps(q, start) && !Answer(q, start, [Claim(7, false, 10)]) &&
            Tally(start, Unreserved, 10 - HOUR, None) == 1 && Tally(start, NoticesOf(7), 10 - HOUR, None) == 0
  {
    var q, start := Quota(1, 0, 5), [OutboundRow(None, Legacy, 0)];
    assert start[..0] == [];
    assert OutboundSince(start, 10 - HOUR) == start;
    assert [Claim(7, false, 10)][..0] == [];
  }
}
