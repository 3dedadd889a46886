/** The bounded entity cache of the session: least recently used goes first. */
module SessionCache {
  import opened Base

  type Id = int

  /** What a caller may ask for. The client library turns a peer object into one marked number, and a number that
      is not marked into that of a user, a group or a channel; both are parameters. */
  datatype EntityKey =
    | Complete                    // already names an account together with its access hash
    | Number(n: int)
    | Object(mark: Id)
    | Unusable                    // a name or a telephone number

  // The marked numbers of a user, a group and a channel with one number.
  datatype Marks = Marks(user: int -> Id, group: int -> Id, channel: int -> Id)

  /** The marked numbers that a key may stand for, in the order in which they are tried. */
  function Candidates(marks: Marks, key: EntityKey): seq<Id> {
    match key
    case Complete => []
    case Number(n) => if n < 0 then [marks.user(n), marks.group(n), marks.channel(n)] else [n]
    case Object(n) => if n < 0 then [marks.user(n), marks.group(n), marks.channel(n)] else [n]
    case Unusable => []
  }

  /** The number in a key that is not complete. */
  function NumberOf(key: EntityKey): Option<int> {
    match key
    case Number(n) => Some(n)
    case Object(mark) => Some(mark)
    case _ => None
  }

  datatype Answer = AsGiven | FromCache(entry: Entry) | Unavailable

  // A user and its access hash.
  datatype Entry = Entry(id: Id, hash: int)

  /** What happens to the cache: an entity seen in an answer, or an entity asked for. */
  datatype Event = Seen(entry: Entry) | Asked(id: Id)

  // ---------------------------------------------------------------- ordered dictionaries, oldest first

  predicate Contains(list: seq<Entry>, id: Id) {
    exists i :: 0 <= i < |list| && list[i].id == id
  }

  function Without(list: seq<Entry>, id: Id): seq<Entry> {
    if list == [] then []
    else if list[0].id == id then Without(list[1..], id) else [list[0]] + Without(list[1..], id)
  }

  function HashOf(list: seq<Entry>, id: Id): int
    requires Contains(list, id)
  {
    if list[|list| - 1].id == id then list[|list| - 1].hash
    else
      assert Contains(list[..|list| - 1], id) by {
        var i :| 0 <= i < |list| && list[i].id == id;
        assert list[..|list| - 1][i].id == id;
      }
      HashOf(list[..|list| - 1], id)
  }

  /** Set and move to the end. */
  function Touched(list: seq<Entry>, entry: Entry): seq<Entry> {
    Without(list, entry.id) + [entry]
  }

  ghost predicate Distinct(list: seq<Entry>) {
    forall i, j :: 0 <= i < j < |list| ==> list[i].id != list[j].id
  }

  /** The newest `limit` entries. */
  function Newest(list: seq<Entry>, limit: nat): seq<Entry> {
    if |list| <= limit then list else list[|list| - limit..]
  }

  lemma {:induction false} WithoutConcat(a: seq<Entry>, b: seq<Entry>, id: Id)
    ensures Without(a + b, id) == Without(a, id) + Without(b, id)
  {
    if a == [] {
      assert a + b == b;
    } else {
      assert (a + b)[1..] == a[1..] + b;
      WithoutConcat(a[1..], b, id);
    }
  }

  lemma {:induction false} WithoutAbsent(list: seq<Entry>, id: Id)
    requires !Contains(list, id)
    ensures Without(list, id) == list
  {
    if list != [] {
      assert list[0].id != id;
      forall i | 0 <= i < |list[1..]| ensures list[1..][i].id != id { assert list[1..][i] == list[i + 1]; }
      WithoutAbsent(list[1..], id);
    }
  }

  lemma {:induction false} WithoutContains(list: seq<Entry>, id: Id, other: Id)
    ensures Contains(Without(list, id), other) <==> Contains(list, other) && other != id
    ensures |Without(list, id)| <= |list|
  {
    if list != [] {
      WithoutContains(list[1..], id, other);
      ContainsFirst(list, other);
      ContainsFirst([list[0]] + Without(list[1..], id), other);
      assert ([list[0]] + Without(list[1..], id))[1..] == Without(list[1..], id);
    }
  }

  lemma ContainsFirst(list: seq<Entry>, id: Id)
    requires list != []
    ensures Contains(list, id) <==> list[0].id == id || Contains(list[1..], id)
  {
    if i :| 0 <= i < |list| && list[i].id == id {
      assert i > 0 ==> list[1..][i - 1].id == id;
    }
    if i :| 0 <= i < |list[1..]| && list[1..][i].id == id {
      assert list[i + 1].id == id;
    }
  }

  lemma ContainsConcat(a: seq<Entry>, b: seq<Entry>, id: Id)
    ensures Contains(a + b, id) <==> Contains(a, id) || Contains(b, id)
  {
    if i :| 0 <= i < |a| && a[i].id == id { assert (a + b)[i].id == id; }
    if i :| 0 <= i < |b| && b[i].id == id { assert (a + b)[|a| + i].id == id; }
    if i :| 0 <= i < |a + b| && (a + b)[i].id == id {
      assert i < |a| ==> a[i].id == id;
      assert i >= |a| ==> b[i - |a|].id == id;
    }
  }

  lemma {:induction false} WithoutKeepsDistinct(list: seq<Entry>, id: Id)
    requires Distinct(list)
    ensures Distinct(Without(list, id))
    ensures |Without(list, id)| == if Contains(list, id) then |list| - 1 else |list|
  {
    if list != [] {
      ContainsFirst(list, id);
      assert Distinct(list[1..]);
      WithoutKeepsDistinct(list[1..], id);
      if list[0].id == id {
        assert !Contains(list[1..], id);
        WithoutAbsent(list[1..], id);
      } else {
        var rest := Without(list[1..], id);
        WithoutContains(list[1..], id, list[0].id);
        assert !Contains(list[1..], list[0].id);
        assert forall j :: 0 <= j < |rest| ==> rest[j].id != list[0].id;
      }
    }
  }

  lemma TouchedKeepsDistinct(list: seq<Entry>, entry: Entry)
    requires Distinct(list)
    ensures Distinct(Touched(list, entry))
    ensures |Touched(list, entry)| == if Contains(list, entry.id) then |list| else |list| + 1
  {
    var rest := Without(list, entry.id);
    WithoutKeepsDistinct(list, entry.id);
    WithoutContains(list, entry.id, entry.id);
    assert forall j :: 0 <= j < |rest| ==> rest[j].id != entry.id;
  }

  // ---------------------------------------------------------------- the reference: nothing is ever evicted

  /** Every user ever touched, by last touch; asking touches only what is among the newest. */
  function Recency(limit: nat, events: seq<Event>): seq<Entry> {
    if events == [] then []
    else
      var before, last := Recency(limit, events[..|events| - 1]), events[|events| - 1];
      match last
      case Seen(entry) => Touched(before, entry)
      case Asked(id) =>
        if Contains(Newest(before, limit), id) then Touched(before, Entry(id, HashOf(Newest(before, limit),
          id))) else before
  }

  // ---------------------------------------------------------------- the cache

  datatype Cache = Cache(entries: seq<Entry>, evictions: nat)

  function Trimmed(c: Cache, limit: nat): Cache
    decreases |c.entries|
  {
    if |c.entries| <= limit then c else Trimmed(Cache(c.entries[1..], c.evictions + 1), limit)
  }

  function After(limit: nat, c: Cache, event: Event): Cache {
    match event
    case Seen(entry) => Trimmed(Cache(Touched(c.entries, entry), c.evictions), limit)
    case Asked(id) =>
      if Contains(c.entries, id) then Cache(Touched(c.entries, Entry(id, HashOf(c.entries, id))), c.evictions) else c
  }

  function Run(limit: nat, events: seq<Event>): Cache {
    if events == [] then Cache([], 0) else After(limit, Run(limit, events[..|events| - 1]), events[|events| - 1])
  }

  lemma {:induction false} TrimmedTo(c: Cache, limit: nat)
    ensures Trimmed(c, limit).entries == Newest(c.entries, limit)
    ensures |Trimmed(c, limit).entries| + Trimmed(c, limit).evictions == |c.entries| + c.evictions
    decreases |c.entries|
  {
    if |c.entries| > limit {
      TrimmedTo(Cache(c.entries[1..], c.evictions + 1), limit);
      if |c.entries| - 1 > limit {
        assert c.entries[1..][|c.entries| - 1 - limit..] == c.entries[|c.entries| - limit..];
      }
    }
  }

  lemma NewestOfConcat(a: seq<Entry>, b: seq<Entry>, limit: nat)
    requires |b| >= limit
    ensures Newest(a + b, limit) == Newest(b, limit)
  {
    if |a + b| > limit && |b| > limit {
      assert (a + b)[|a + b| - limit..] == b[|b| - limit..];
    }
  }

  /** Trimming before a touch loses nothing that trimming after it would keep. */
  lemma TouchOfNewest(list: seq<Entry>, limit: nat, entry: Entry)
    requires Distinct(list) && limit >= 1
    ensures Newest(Touched(Newest(list, limit), entry), limit) == Newest(Touched(list, entry), limit)
  {
    if |list| > limit {
      var lost, kept := list[..|list| - limit], list[|list| - limit..];
      assert list == lost + kept;
      WithoutConcat(lost, kept, entry.id);
      WithoutKeepsDistinct(kept, entry.id);
      assert Touched(list, entry) == Without(lost, entry.id) + Touched(kept, entry);
      NewestOfConcat(Without(lost, entry.id), Touched(kept, entry), limit);
    }
  }

  lemma NewestDistinct(list: seq<Entry>, limit: nat)
    requires Distinct(list)
    ensures Distinct(Newest(list, limit))
  {}

  /** The bounded cache is always the newest part of the full recency list. */
  lemma {:induction false} CacheIsNewest(limit: nat, events: seq<Event>)
    requires limit >= 1
    ensures Run(limit, events).entries == Newest(Recency(limit, events), limit)
    ensures Distinct(Recency(limit, events))
    decreases |events|
  {
    if events != [] {
      var past, last := events[..|events| - 1], events[|events| - 1];
      CacheIsNewest(limit, past);
      var all, c := Recency(limit, past), Run(limit, past);
      NewestDistinct(all, limit);
      match last {
        case Seen(entry) =>
          TouchedKeepsDistinct(all, entry);
          TouchOfNewest(all, limit, entry);
          TrimmedTo(Cache(Touched(c.entries, entry), c.evictions), limit);
        case Asked(id) =>
          if Contains(c.entries, id) {
            var entry := Entry(id, HashOf(c.entries, id));
            TouchedKeepsDistinct(all, entry);
            TouchedKeepsDistinct(c.entries, entry);
            TouchOfNewest(all, limit, entry);
            assert Newest(Touched(c.entries, entry), limit) == Touched(c.entries, entry);
          }
      }
    }
  }

  // ---------------------------------------------------------------- what the cache holds

  /** The access hash last seen for a user. */
  function LastHash(events: seq<Event>, id: Id): Option<int> {
    if events == [] then None
    else
      var last := events[|events| - 1];
      if last.Seen? && last.entry.id == id then Some(last.entry.hash) else LastHash(events[..|events| - 1], id)
  }

  /** Every touch in order: users seen, and users asked for while they were cached. */
  function Touches(limit: nat, events: seq<Event>): seq<Entry> {
    if events == [] then []
    else
      var past, last := events[..|events| - 1], events[|events| - 1];
      var entries := Run(limit, past).entries;
      match last
      case Seen(entry) => Touches(limit, past) + [entry]
      case Asked(id) =>
        if Contains(entries, id) then Touches(limit, past) + [Entry(id, HashOf(entries, id))] else Touches(limit, past)
  }

  /** The users touched after the last touch of one. */
  function LaterIds(list: seq<Entry>, id: Id): set<Id> {
    if list == [] || list[|list| - 1].id == id then {}
    else {list[|list| - 1].id} + LaterIds(list[..|list| - 1], id)
  }

  lemma LaterIdsSnoc(list: seq<Entry>, entry: Entry, id: Id)
    ensures LaterIds(list + [entry], id) == if entry.id == id then {} else LaterIds(list, id) + {entry.id}
  {
    assert (list + [entry])[..|list|] == list;
  }

  lemma {:induction false} LaterIdsAreListed(list: seq<Entry>, id: Id, other: Id)
    ensures other in LaterIds(list, id) ==> Contains(list, other) && other != id
  {
    if list != [] && list[|list| - 1].id != id {
      var rest := list[..|list| - 1];
      LaterIdsAreListed(rest, id, other);
      assert list == rest + [list[|list| - 1]];
      ContainsConcat(rest, [list[|list| - 1]], other);
      assert [list[|list| - 1]][0].id == list[|list| - 1].id;
    }
  }

  lemma {:induction false} LaterIdsWithout(list: seq<Entry>, gone: Id, id: Id)
    requires gone != id
    ensures LaterIds(Without(list, gone), id) == LaterIds(list, id) - {gone}
    decreases |list|
  {
    if list != [] {
      var rest, last := list[..|list| - 1], list[|list| - 1];
      assert list == rest + [last];
      WithoutConcat(rest, [last], gone);
      LaterIdsWithout(rest, gone, id);
      LaterIdsSnoc(rest, last, id);
      if last.id == gone {
        assert Without(list, gone) == Without(rest, gone);
      } else {
        assert Without([last], gone) == [last];
        LaterIdsSnoc(Without(rest, gone), last, id);
      }
    }
  }

  /** Moving to the end keeps track of who came later. */
  lemma LaterIdsTouched(list: seq<Entry>, entry: Entry, id: Id)
    ensures LaterIds(Touched(list, entry), id) == if entry.id == id then {} else LaterIds(list, id) + {entry.id}
  {
    LaterIdsSnoc(Without(list, entry.id), entry, id);
    if entry.id != id {
      LaterIdsWithout(list, entry.id, id);
    }
  }

  lemma TouchedContains(list: seq<Entry>, entry: Entry, id: Id)
    ensures Contains(Touched(list, entry), id) <==> Contains(list, id) || entry.id == id
  {
    WithoutContains(list, entry.id, id);
    ContainsConcat(Without(list, entry.id), [entry], id);
    assert [entry][0].id == entry.id;
  }

  lemma SnocContains(list: seq<Entry>, entry: Entry, id: Id)
    ensures Contains(list + [entry], id) <==> Contains(list, id) || entry.id == id
  {
    ContainsConcat(list, [entry], id);
    assert [entry][0].id == entry.id;
  }

  /** The recency list agrees with the log of touches. */
  lemma {:induction false} RecencyFollowsTouches(limit: nat, events: seq<Event>, id: Id)
    requires limit >= 1
    ensures Contains(Recency(limit, events), id) <==> Contains(Touches(limit, events), id)
    ensures LaterIds(Recency(limit, events), id) == LaterIds(Touches(limit, events), id)
    decreases |events|
  {
    if events != [] {
      var past, last := events[..|events| - 1], events[|events| - 1];
      RecencyFollowsTouches(limit, past, id);
      CacheIsNewest(limit, past);
      var entries := Run(limit, past).entries;
      if last.Seen? || Contains(entries, last.id) {
        var entry := if last.Seen? then last.entry else Entry(last.id, HashOf(entries, last.id));
        TouchedContains(Recency(limit, past), entry, id);
        SnocContains(Touches(limit, past), entry, id);
        LaterIdsTouched(Recency(limit, past), entry, id);
        LaterIdsSnoc(Touches(limit, past), entry, id);
      }
    }
  }

  lemma {:induction false} AmongNewest(list: seq<Entry>, limit: nat, id: Id)
    requires Distinct(list) && Contains(list, id)
    ensures Contains(Newest(list, limit), id) <==> |LaterIds(list, id)| < limit
    decreases |list|
  {
    var rest, last := list[..|list| - 1], list[|list| - 1];
    assert list == rest + [last];
    SnocContains(rest, last, id);
    LaterIdsSnoc(rest, last, id);
    if limit == 0 {
      assert Newest(list, limit) == [];
    } else {
      assert Newest(list, limit) == Newest(rest, limit - 1) + [last];
      SnocContains(Newest(rest, limit - 1), last, id);
      if last.id != id {
        AmongNewest(rest, limit - 1, id);
        LaterIdsAreListed(rest, id, last.id);
        assert !Contains(rest, last.id);
        assert |LaterIds(list, id)| == |LaterIds(rest, id)| + 1;
      }
    }
  }

  lemma NewestContains(list: seq<Entry>, limit: nat, id: Id)
    requires !Contains(list, id)
    ensures !Contains(Newest(list, limit), id)
  {
    if |list| > limit {
      assert list == list[..|list| - limit] + Newest(list, limit);
      ContainsConcat(list[..|list| - limit], Newest(list, limit), id);
    }
  }

  /** A user is cached exactly when it was touched and fewer than `limit` others were touched since. */
  lemma CachedExactlyWhenRecent(limit: nat, events: seq<Event>, id: Id)
    requires limit >= 1
    ensures Contains(Run(limit, events).entries, id) <==> Recent(limit, events, id)
    ensures |Run(limit, events).entries| <= limit
  {
    CacheIsNewest(limit, events);
    RecencyFollowsTouches(limit, events, id);
    var all := Recency(limit, events);
    if Contains(all, id) {
      AmongNewest(all, limit, id);
    } else {
      NewestContains(all, limit, id);
    }
  }

  lemma {:induction false} WithoutMember(list: seq<Entry>, id: Id, e: Entry)
    ensures e in Without(list, id) <==> e in list && e.id != id
  {
    if list != [] {
      WithoutMember(list[1..], id, e);
      assert list == [list[0]] + list[1..];
    }
  }

  lemma {:induction false} HashOfMember(list: seq<Entry>, id: Id)
    requires Contains(list, id)
    ensures Entry(id, HashOf(list, id)) in list
  {
    var rest, last := list[..|list| - 1], list[|list| - 1];
    assert list == rest + [last];
    if last.id != id {
      SnocContains(rest, last, id);
      HashOfMember(rest, id);
    }
  }

  lemma {:induction false} RecencyHasLastHash(limit: nat, events: seq<Event>, e: Entry)
    requires e in Recency(limit, events)
    ensures LastHash(events, e.id) == Some(e.hash)
    decreases |events|
  {
    var past, last := events[..|events| - 1], events[|events| - 1];
    var before := Recency(limit, past);
    match last {
      case Seen(entry) =>
        WithoutMember(before, entry.id, e);
        if e.id != entry.id { RecencyHasLastHash(limit, past, e); }
      case Asked(id) =>
        var newest := Newest(before, limit);
        if Contains(newest, id) {
          HashOfMember(newest, id);
          WithoutMember(before, id, e);
          RecencyHasLastHash(limit, past, if e.id == id then Entry(id, HashOf(newest, id)) else e);
        } else {
          RecencyHasLastHash(limit, past, e);
        }
    }
  }

  /** What the cache answers is the hash last seen. */
  lemma CachedHashIsTheLastSeen(limit: nat, events: seq<Event>, id: Id)
    requires limit >= 1 && Contains(Run(limit, events).entries, id)
    ensures LastHash(events, id) == Some(HashOf(Run(limit, events).entries, id))
  {
    CacheIsNewest(limit, events);
    HashOfMember(Run(limit, events).entries, id);
    RecencyHasLastHash(limit, events, Entry(id, HashOf(Run(limit, events).entries, id)));
  }

  /** Insertions of users that were not cached at that moment. */
  function NewInsertions(limit: nat, events: seq<Event>): nat {
    if events == [] then 0
    else
      var past, last := events[..|events| - 1], events[|events| - 1];
      NewInsertions(limit, past) +
      (if last.Seen? && !Contains(Run(limit, past).entries, last.entry.id) then 1 else 0)
  }

  /** Nothing is lost but by eviction. */
  lemma {:induction false} SizePlusEvictions(limit: nat, events: seq<Event>)
    requires limit >= 1
    ensures |Run(limit, events).entries| + Run(limit, events).evictions == NewInsertions(limit, events)
    decreases |events|
  {
    if events != [] {
      var past, last := events[..|events| - 1], events[|events| - 1];
      SizePlusEvictions(limit, past);
      CacheIsNewest(limit, past);
      var c := Run(limit, past);
      NewestDistinct(Recency(limit, past), limit);
      match last {
        case Seen(entry) =>
          TouchedKeepsDistinct(c.entries, entry);
          TrimmedTo(Cache(Touched(c.entries, entry), c.evictions), limit);
        case Asked(id) =>
          if Contains(c.entries, id) { TouchedKeepsDistinct(c.entries, Entry(id, HashOf(c.entries, id))); }
      }
    }
  }

  /** Touched, and fewer than `limit` others since. */
  ghost predicate Recent(limit: nat, events: seq<Event>, id: Id) {
    Contains(Touches(limit, events), id) && |LaterIds(Touches(limit, events), id)| < limit
  }

  ghost predicate FirstRecent(limit: nat, events: seq<Event>, candidates: seq<Id>, i: int) {
    0 <= i < |candidates| && Recent(limit, events, candidates[i]) &&
    forall j :: 0 <= j < i ==> !Recent(limit, events, candidates[j])
  }

  lemma FirstOfThree(limit: nat, events: seq<Event>, tried: seq<Id>, i: int)
    requires FirstRecent(limit, events, tried, i) && (|tried| == 1 || |tried| == 3)
    ensures |tried| == 1 ==> tried[i] == tried[0] && Recent(limit, events, tried[0])
    ensures |tried| == 3 ==>
      (Recent(limit, events, tried[0]) || Recent(limit, events, tried[1]) || Recent(limit, events, tried[2])) &&
      tried[i] == if Recent(limit, events, tried[0]) then tried[0]
                  else if Recent(limit, events, tried[1]) then tried[1] else tried[2]
  {}

  lemma NoneOfThree(limit: nat, events: seq<Event>, tried: seq<Id>)
    requires forall i :: 0 <= i < |tried| ==> !Recent(limit, events, tried[i])
    requires |tried| == 1 || |tried| == 3
    ensures !Recent(limit, events, tried[0])
    ensures |tried| == 3 ==> !Recent(limit, events, tried[1]) && !Recent(limit, events, tried[2])
  {}

  // ---------------------------------------------------------------- the session

  class BoundedStringSession {
    const limit: nat
    var entities: seq<Entry>
    var evictions: nat
    ghost var events: seq<Event>

    ghost predicate Valid()
      reads this
    {
      limit >= 1 && Cache(entities, evictions) == Run(limit, events)
    }

    /** A limit below one is refused by the program. */
    constructor (limit: nat)
      requires limit >= 1
      ensures Valid() && events == [] && this.limit == limit
    {
      this.limit, entities, evictions, events := limit, [], 0, [];
    }

    /** The users of an answer, one after the other. */
    method ProcessEntities(users: seq<Entry>)
      requires Valid()
      modifies this
      ensures Valid() && |events| == |old(events)| + |users|
      ensures events[..|old(events)|] == old(events)
      ensures forall i :: 0 <= i < |users| ==> events[|old(events)| + i] == Seen(users[i])
    {
      for n := 0 to |users|
        invariant Valid() && |events| == |old(events)| + n
        invariant events[..|old(events)|] == old(events)
        invariant forall i :: 0 <= i < n ==> events[|old(events)| + i] == Seen(users[i])
      {
        Insert(users[n]);
      }
    }

    method Insert(user: Entry)
      requires Valid()
      modifies this
      ensures Valid() && events == old(events) + [Seen(user)]
    {
      ghost var touched := Cache(Touched(entities, user), evictions);
      events := events + [Seen(user)];
      assert events[..|events| - 1] == old(events);
      entities := Touched(entities, user);
      while |entities| > limit
        invariant events == old(events) + [Seen(user)]
        invariant Trimmed(Cache(entities, evictions), limit) == Trimmed(touched, limit)
        decreases |entities|
      {
        entities, evictions := entities[1..], evictions + 1;
      }
      assert Cache(entities, evictions) == Trimmed(touched, limit);
    }

    /** A complete key is answered as it is. Any other is looked up under each number it may stand for; the first
        one in the cache is answered and becomes the newest, and a miss touches nothing. */
    method GetInputEntity(marks: Marks, key: EntityKey) returns (answer: Answer)
      requires Valid()
      modifies this
      ensures Valid()
      ensures answer.AsGiven? <==> key.Complete?
      ensures answer.Unavailable? <==>
        !key.Complete? && forall i :: 0 <= i < |Candidates(marks, key)| ==>
          !Recent(limit, old(events), Candidates(marks, key)[i])
      // A positive number stands for itself; a negative one for a user, a group or a channel, tried in that order.
      ensures NumberOf(key).Some? ==>
        var n, seen := NumberOf(key).value, old(events);
        if n >= 0 then
          (answer.FromCache? <==> Recent(limit, seen, n)) && (answer.FromCache? ==> answer.entry.id == n)
        else
          (answer.FromCache? <==>
             Recent(limit, seen, marks.user(n)) || Recent(limit, seen, marks.group(n)) ||
             Recent(limit, seen, marks.channel(n))) &&
          (answer.FromCache? ==>
             answer.entry.id == if Recent(limit, seen, marks.user(n)) then marks.user(n)
                                else if Recent(limit, seen, marks.group(n)) then marks.group(n) else marks.channel(n))
      ensures !answer.FromCache? ==> events == old(events) && entities == old(entities)
      ensures answer.FromCache? ==>
        (exists i :: FirstRecent(limit, old(events), Candidates(marks, key), i) &&
                     Candidates(marks, key)[i] == answer.entry.id) &&
        events == old(events) + [Asked(answer.entry.id)] &&
        LastHash(old(events), answer.entry.id) == Some(answer.entry.hash)
    {
      if key.Complete? {
        return AsGiven;
      }
      var found := FirstCached(Candidates(marks, key));
      answer := if found.Some? then FromCache(found.value) else Unavailable;
      ghost var tried := Candidates(marks, key);
      if found.Some? {
        ghost var i :| FirstRecent(limit, old(events), tried, i) && tried[i] == found.value.id;
        FirstOfThree(limit, old(events), tried, i);
      } else if tried != [] {
        NoneOfThree(limit, old(events), tried);
      }
    }

    method FirstCached(candidates: seq<Id>) returns (found: Option<Entry>)
      requires Valid()
      modifies this
      ensures Valid()
      ensures found.None? <==> forall i :: 0 <= i < |candidates| ==> !Recent(limit, old(events), candidates[i])
      ensures found.None? ==> events == old(events) && entities == old(entities)
      ensures found.Some? ==>
        (exists i :: FirstRecent(limit, old(events), candidates, i) && candidates[i] == found.value.id) &&
        events == old(events) + [Asked(found.value.id)] &&
        LastHash(old(events), found.value.id) == Some(found.value.hash)
    {
      found := None;
      for n := 0 to |candidates|
        invariant found.None? && events == old(events) && entities == old(entities) && evictions == old(evictions)
        invariant forall j :: 0 <= j < n ==> !Recent(limit, old(events), candidates[j])
      {
        var id := candidates[n];
        CachedExactlyWhenRecent(limit, events, id);
        if Contains(entities, id) {
          CachedHashIsTheLastSeen(limit, events, id);
          assert FirstRecent(limit, events, candidates, n);
          var entry := Entry(id, HashOf(entities, id));
          entities := Touched(entities, entry);
          events := events + [Asked(id)];
          assert events[..|events| - 1] == old(events);
          return Some(entry);
        }
      }
    }
  }
}
