/** SQL's ORDER BY: a list sorted by a rank, with ties broken by the key. */
module Ordering {

  // What each key is sorted by, smallest first.
  type Rank = map<nat, int>

  predicate Precedes(rank: Rank, a: nat, b: nat)
    requires a in rank && b in rank
  {
    rank[a] < rank[b] || (rank[a] == rank[b] && a < b)
  }

  predicate First(rank: Rank, m: nat, keys: set<nat>)
    requires forall k :: k in keys ==> k in rank
  {
    m in keys && forall k :: k in keys ==> k == m || Precedes(rank, m, k)
  }

  lemma {:induction false} FirstExists(rank: Rank, keys: set<nat>)
    requires keys != {} && forall k :: k in keys ==> k in rank
    ensures exists m :: First(rank, m, keys)
  {
    var k :| k in keys;
    var rest := keys - {k};
    assert forall x :: x in keys ==> x == k || x in rest;
    if rest == {} {
      assert First(rank, k, keys);
    } else {
      FirstExists(rank, rest);
      var m :| First(rank, m, rest);
      assert First(rank, if Precedes(rank, k, m) then k else m, keys);
    }
  }

  /** Strictly sorted, so nothing is listed twice. */
  ghost predicate Sorted(rank: Rank, list: seq<nat>) {
    (forall k :: k in list ==> k in rank) &&
    forall i, j :: 0 <= i < j < |list| ==> Precedes(rank, list[i], list[j])
  }

  /** The sorted list of everything that has a rank. */
  ghost predicate Lists(rank: Rank, list: seq<nat>) {
    Sorted(rank, list) && forall k :: k in list <==> k in rank
  }

  function Members(list: seq<nat>): set<nat> {
    set k | k in list
  }

  lemma TailMember(rank: Rank, list: seq<nat>, k: nat)
    requires Sorted(rank, list) && list != []
    ensures k in list[1..] <==> k in list && k != list[0]
  {
    if k in list && k != list[0] {
      var i :| 0 <= i < |list| && list[i] == k;
      assert list[1..][i - 1] == k;
    }
  }

  /** There is only one sorted list of the same keys. */
  lemma {:induction false} SortedIsUnique(rank: Rank, a: seq<nat>, b: seq<nat>)
    requires Sorted(rank, a) && Sorted(rank, b)
    requires forall k :: k in a <==> k in b
    ensures a == b
    decreases |a|
  {
    if a == [] {
      assert forall i :: 0 <= i < |b| ==> b[i] in b;
    } else {
      assert a[0] in b && b[0] in a;
      var i :| 0 <= i < |b| && b[i] == a[0];
      var j :| 0 <= j < |a| && a[j] == b[0];
      assert a[0] == b[0];
      forall k ensures k in a[1..] <==> k in b[1..] {
        TailMember(rank, a, k);
        TailMember(rank, b, k);
      }
      SortedIsUnique(rank, a[1..], b[1..]);
    }
  }

  lemma {:induction false} SortedSize(rank: Rank, list: seq<nat>)
    requires Sorted(rank, list)
    ensures |Members(list)| == |list|
  {
    if list != [] {
      SortedSize(rank, list[1..]);
      forall k: nat ensures k in Members(list) <==> k in Members(list[1..]) + {list[0]} {
        TailMember(rank, list, k);
      }
      TailMember(rank, list, list[0]);
      assert Members(list) == Members(list[1..]) + {list[0]};
    }
  }

  method Sort(rank: Rank) returns (list: seq<nat>)
    ensures Lists(rank, list)
  {
    list := [];
    var rest := rank.Keys;
    while rest != {}
      invariant rest <= rank.Keys && Sorted(rank, list)
      invariant forall k :: k in rank <==> k in list || k in rest
      invariant forall i, k :: 0 <= i < |list| && k in rest ==> Precedes(rank, list[i], k)
      decreases rest
    {
      FirstExists(rank, rest);
      var m :| First(rank, m, rest);
      list, rest := list + [m], rest - {m};
    }
  }
}
