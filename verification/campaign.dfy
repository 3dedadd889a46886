/** The seven-day campaign counter: upserts and global deletes still count distinct senders correctly. */
module Campaign {
  import opened Base
  import opened Tables
  import opened StoreSpec

  // One observation: this sender showed this fingerprint at this time.
  datatype Sight = Sight(fingerprint: string, sender: Key, at: Time)

  datatype Use = Observe(sight: Sight) | Prune(now: Time)

  function TimeOf(use: Use): Time {
    match use
    case Observe(sight) => sight.at
    case Prune(now) => now
  }

  type Events = map<(string, Key), Time>

  /** DELETE older rows, then INSERT ... ON CONFLICT DO UPDATE. */
  function Upsert(table: Events, sight: Sight): Events {
    CampaignSince(table, sight.at - CAMPAIGN_WINDOW)[(sight.fingerprint, sight.sender) := sight.at]
  }

  /** SELECT COUNT(*) of one fingerprint's rows since the cutoff. */
  function Count(table: Events, fingerprint: string, cutoff: Time): nat {
    |set p | p in table && p.0 == fingerprint && table[p] >= cutoff|
  }

  /** The table after a sequence of uses; maintenance deletes by the same window. */
  function Table(start: Events, uses: seq<Use>): Events {
    if uses == [] then start
    else
      var before := Table(start, uses[..|uses| - 1]);
      match uses[|uses| - 1]
      case Observe(sight) => Upsert(before, sight)
      case Prune(now) => CampaignSince(before, now - CAMPAIGN_WINDOW)
  }

  /** What `observe_campaign` returned for the last use. */
  function Observed(start: Events, uses: seq<Use>): nat
    requires uses != [] && uses[|uses| - 1].Observe?
  {
    var last := uses[|uses| - 1].sight;
    Count(Table(start, uses), last.fingerprint, last.at - CAMPAIGN_WINDOW)
  }

  /** The distinct senders that the full history shows with this fingerprint since the cutoff: the rows it
      started with, and everything observed since. */
  ghost function Seen(start: Events, uses: seq<Use>, fingerprint: string, cutoff: Time): set<Key> {
    (set p | p in start && p.0 == fingerprint && start[p] >= cutoff :: p.1) +
    (set i | 0 <= i < |uses| && uses[i].Observe? && uses[i].sight.fingerprint == fingerprint &&
             uses[i].sight.at >= cutoff :: uses[i].sight.sender)
  }

  /** The clock never goes back, and the rows of the start are not from the future. */
  ghost predicate Monotone(start: Events, uses: seq<Use>) {
    (forall i, j :: 0 <= i < j < |uses| ==> TimeOf(uses[i]) <= TimeOf(uses[j])) &&
    (forall p, i :: p in start && 0 <= i < |uses| ==> start[p] <= TimeOf(uses[i]))
  }

  /** The history shows this sender with this fingerprint at or after the cutoff. */
  ghost predicate Shows(start: Events, uses: seq<Use>, p: (string, Key), cutoff: Time) {
    (p in start && start[p] >= cutoff) || Logged(uses, p, cutoff)
  }

  ghost predicate Logged(uses: seq<Use>, p: (string, Key), cutoff: Time) {
    exists i :: 0 <= i < |uses| && uses[i].Observe? && uses[i].sight.fingerprint == p.0 &&
                uses[i].sight.sender == p.1 && uses[i].sight.at >= cutoff
  }

  lemma LoggedLast(uses: seq<Use>, p: (string, Key), cutoff: Time)
    requires uses != []
    ensures var last := uses[|uses| - 1];
            Logged(uses, p, cutoff) <==>
              Logged(uses[..|uses| - 1], p, cutoff) ||
              (last.Observe? && last.sight.fingerprint == p.0 && last.sight.sender == p.1 && last.sight.at >= cutoff)
  {
    var before := uses[..|uses| - 1];
    if Logged(uses, p, cutoff) {
      var i :| 0 <= i < |uses| && uses[i].Observe? && uses[i].sight.fingerprint == p.0 &&
               uses[i].sight.sender == p.1 && uses[i].sight.at >= cutoff;
      if i < |uses| - 1 { assert before[i] == uses[i]; }
    }
    if Logged(before, p, cutoff) {
      var i :| 0 <= i < |before| && before[i].Observe? && before[i].sight.fingerprint == p.0 &&
               before[i].sight.sender == p.1 && before[i].sight.at >= cutoff;
      assert uses[i] == before[i];
    }
  }

  /** For every cutoff inside the current window, a pair is stored with at least that time exactly when the
      full history shows it. */
  lemma {:induction false} TableShowsWindow(start: Events, uses: seq<Use>, p: (string, Key), cutoff: Time)
    requires Monotone(start, uses)
    requires uses != [] ==> cutoff >= TimeOf(uses[|uses| - 1]) - CAMPAIGN_WINDOW
    ensures (p in Table(start, uses) && Table(start, uses)[p] >= cutoff) <==> Shows(start, uses, p, cutoff)
    decreases |uses|
  {
    if uses != [] {
      var before, last := uses[..|uses| - 1], uses[|uses| - 1];
      TableShowsWindow(start, before, p, cutoff);
      LoggedLast(uses, p, cutoff);
      if last.Observe? && last.sight.fingerprint == p.0 && last.sight.sender == p.1 && Logged(before, p, cutoff) {
        var i :| 0 <= i < |before| && before[i].Observe? && before[i].sight.fingerprint == p.0 &&
                 before[i].sight.sender == p.1 && before[i].sight.at >= cutoff;
        assert TimeOf(uses[i]) <= TimeOf(last);
      }
    }
  }

  /** Counting rows of one fingerprint is counting senders. */
  lemma {:induction false} RowsAreSenders(rows: set<(string, Key)>, fingerprint: string, senders: set<Key>)
    requires forall p :: p in rows ==> p.0 == fingerprint
    requires forall k :: k in senders <==> (fingerprint, k) in rows
    ensures |rows| == |senders|
    decreases rows
  {
    if rows == {} {
      assert senders == {};
    } else {
      var p :| p in rows;
      assert (fingerprint, p.1) == p;
      RowsAreSenders(rows - {p}, fingerprint, senders - {p.1});
    }
  }

  /** Under a clock that never goes back and with no erasure, the answer is the number of distinct senders
      that showed this fingerprint in the last seven days of the full history. */
  lemma CountsDistinctSenders(start: Events, uses: seq<Use>)
    requires Monotone(start, uses) && uses != [] && uses[|uses| - 1].Observe?
    ensures var last := uses[|uses| - 1].sight;
            Observed(start, uses) == |Seen(start, uses, last.fingerprint, last.at - CAMPAIGN_WINDOW)|
  {
    var last := uses[|uses| - 1].sight;
    var cutoff := last.at - CAMPAIGN_WINDOW;
    var table := Table(start, uses);
    var rows := set p | p in table && p.0 == last.fingerprint && table[p] >= cutoff;
    var senders := Seen(start, uses, last.fingerprint, cutoff);
    forall k: Key
      ensures k in senders <==> (last.fingerprint, k) in rows
    {
      TableShowsWindow(start, uses, (last.fingerprint, k), cutoff);
    }
    RowsAreSenders(rows, last.fingerprint, senders);
  }

  ghost predicate AnotherIn<T>(s: set<T>, k: T) {
    exists other :: other in s && other != k
  }

  lemma TwoMembers<T>(s: set<T>, k: T)
    requires k in s
    ensures |s| >= 2 <==> AnotherIn(s, k)
  {
    if |s| >= 2 {
      assert |s - {k}| == |s| - 1;
      var other :| other in s - {k};
    }
    if AnotherIn(s, k) {
      var other :| other in s && other != k;
      assert s == {k, other} + (s - {k, other});
    }
  }

  /** The repeated-campaign signal is added exactly when a different sender showed the fingerprint. */
  lemma RepeatedIffAnotherSender(start: Events, uses: seq<Use>)
    requires Monotone(start, uses) && uses != [] && uses[|uses| - 1].Observe?
    ensures var last := uses[|uses| - 1].sight;
            Observed(start, uses) >= 2 <==>
              AnotherIn(Seen(start, uses, last.fingerprint, last.at - CAMPAIGN_WINDOW), last.sender)
  {
    var last := uses[|uses| - 1].sight;
    var senders := Seen(start, uses, last.fingerprint, last.at - CAMPAIGN_WINDOW);
    CountsDistinctSenders(start, uses);
    assert uses[|uses| - 1].sight.sender in senders;
    TwoMembers(senders, last.sender);
  }

  /** The stored table shows the fingerprint with another sender within the window. */
  ghost predicate ShownByAnother(table: Events, sight: Sight) {
    exists p :: p in table && p.0 == sight.fingerprint && p.1 != sight.sender && table[p] >= sight.at - 604800
  }

  /** The same on any stored table: the sender's own older sightings never count. */
  lemma CountsTwoIfShownByAnother(table: Events, sight: Sight)
    ensures Count(Upsert(table, sight), sight.fingerprint, sight.at - CAMPAIGN_WINDOW) >= 2 <==>
            ShownByAnother(table, sight)
  {
    var cutoff := sight.at - CAMPAIGN_WINDOW;
    var after := Upsert(table, sight);
    var rows := set p | p in after && p.0 == sight.fingerprint && after[p] >= cutoff;
    TwoMembers(rows, (sight.fingerprint, sight.sender));
    if p :| p in table && p.0 == sight.fingerprint && p.1 != sight.sender && table[p] >= cutoff {
      assert p in rows;
    }
    if AnotherIn(rows, (sight.fingerprint, sight.sender)) {
      var p :| p in rows && p != (sight.fingerprint, sight.sender);
      assert p == (p.0, p.1);
      assert p in table;
    }
  }
}
