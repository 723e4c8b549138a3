/**
 * The leaderboard array's built-in sort, given a comparator that puts more
 * points first: a stable sort by points, highest first.  Any stable sort gives the same
 * result for one comparator, so the array method below is an insertion sort,
 * specified by the functional `SortDesc`.
 */
module Ranking {

  /** One leaderboard row; `rank` is overwritten after sorting. */
  datatype Entry = Entry(userId: string, teamName: string, totalPoints: int, predictionsCount: nat, rank: int)

  predicate SortedDesc(s: seq<Entry>)
  {
    forall k, l :: 0 <= k < l < |s| ==> s[k].totalPoints >= s[l].totalPoints
  }

  /** Puts `x` after every entry with at least as many points. */
  function Insert(x: Entry, s: seq<Entry>): seq<Entry>
  {
    if s == [] then [x]
    else if s[0].totalPoints >= x.totalPoints then [s[0]] + Insert(x, s[1..])
    else [x] + s
  }

  /** Stable sort by points, highest first: each entry is inserted after the earlier ones it ties with. */
  function SortDesc(s: seq<Entry>): seq<Entry>
  {
    if s == [] then [] else Insert(s[|s| - 1], SortDesc(s[..|s| - 1]))
  }

  /**
   * `a` comes before `b`: more points, or as many points and a smaller
   * `seen` key (on the leaderboard, the index of the player's first row).
   */
  predicate Precedes(seen: string -> int, a: Entry, b: Entry)
  {
    || a.totalPoints > b.totalPoints
    || (a.totalPoints == b.totalPoints && seen(a.userId) < seen(b.userId))
  }

  ghost predicate InOrder(seen: string -> int, s: seq<Entry>)
  {
    forall k, l :: 0 <= k < l < |s| ==> Precedes(seen, s[k], s[l])
  }

  /** The entries are listed by strictly increasing `seen` key. */
  ghost predicate SeenOrder(seen: string -> int, s: seq<Entry>)
  {
    forall k, l :: 0 <= k < l < |s| ==> seen(s[k].userId) < seen(s[l].userId)
  }

  lemma {:induction false} InsertPermutes(x: Entry, s: seq<Entry>)
    ensures multiset(Insert(x, s)) == multiset(s) + multiset{x}
    ensures |Insert(x, s)| == |s| + 1
  {
    if s != [] && s[0].totalPoints >= x.totalPoints {
      InsertPermutes(x, s[1..]);
      assert s == [s[0]] + s[1..];
    }
  }

  /** The sort only reorders. */
  lemma {:induction false} SortDescPermutes(s: seq<Entry>)
    ensures multiset(SortDesc(s)) == multiset(s)
    ensures |SortDesc(s)| == |s|
  {
    if s != [] {
      var init, x := s[..|s| - 1], s[|s| - 1];
      var sorted := SortDesc(init);
      assert SortDesc(s) == Insert(x, sorted);
      SortDescPermutes(init);
      InsertPermutes(x, sorted);
      LastSplit(s);
    }
  }

  lemma LastSplit(s: seq<Entry>)
    requires s != []
    ensures multiset(s) == multiset(s[..|s| - 1]) + multiset{s[|s| - 1]}
  {
    assert s == s[..|s| - 1] + [s[|s| - 1]];
  }

  lemma {:induction false} InsertKeepsSorted(x: Entry, s: seq<Entry>)
    requires SortedDesc(s)
    ensures SortedDesc(Insert(x, s))
  {
    if s != [] && s[0].totalPoints >= x.totalPoints {
      var rest := Insert(x, s[1..]);
      InsertKeepsSorted(x, s[1..]);
      InsertBounded(x, s[1..], s[0].totalPoints);
      assert Insert(x, s) == [s[0]] + rest;
    }
  }

  /** Inserting keeps every entry at or below a bound that `x` and `s` respect. */
  lemma {:induction false} InsertBounded(x: Entry, s: seq<Entry>, bound: int)
    requires x.totalPoints <= bound
    requires forall k :: 0 <= k < |s| ==> s[k].totalPoints <= bound
    ensures forall k :: 0 <= k < |Insert(x, s)| ==> Insert(x, s)[k].totalPoints <= bound
  {
    if s != [] && s[0].totalPoints >= x.totalPoints {
      InsertBounded(x, s[1..], bound);
    }
  }

  /** The sort's result is ordered by points, highest first. */
  lemma {:induction false} SortDescIsSorted(s: seq<Entry>)
    ensures SortedDesc(SortDesc(s))
  {
    if s != [] {
      SortDescIsSorted(s[..|s| - 1]);
      InsertKeepsSorted(s[|s| - 1], SortDesc(s[..|s| - 1]));
    }
  }

  /**
   * Inserting into a sorted sequence puts `x` right after the last entry
   * with at least its points.
   */
  lemma {:induction false} InsertAt(x: Entry, s: seq<Entry>, j: nat)
    requires SortedDesc(s) && j <= |s|
    requires j > 0 ==> s[j - 1].totalPoints >= x.totalPoints
    requires forall m :: j <= m < |s| ==> s[m].totalPoints < x.totalPoints
    ensures Insert(x, s) == s[..j] + [x] + s[j..]
  {
    if j > 0 {
      InsertAt(x, s[1..], j - 1);
      assert s[1..][..j - 1] == s[1..j];
      assert s[1..][j - 1..] == s[j..];
      assert s[..j] == [s[0]] + s[1..j];
    } else if s != [] {
      assert s[..0] + [x] + s[0..] == [x] + s;
    }
  }

  /**
   * Stability: inserting an entry whose key is larger than every key
   * already placed keeps the order.
   */
  lemma {:induction false} InsertKeepsOrder(seen: string -> int, x: Entry, s: seq<Entry>)
    requires InOrder(seen, s)
    requires forall e :: e in s ==> seen(e.userId) < seen(x.userId)
    ensures InOrder(seen, Insert(x, s))
    decreases |s|, 1
  {
    if s == [] {
    } else if s[0].totalPoints >= x.totalPoints {
      InsertBehindHead(seen, x, s);
    } else {
      InsertInFront(seen, x, s);
    }
  }

  lemma {:induction false} InsertBehindHead(seen: string -> int, x: Entry, s: seq<Entry>)
    requires s != [] && s[0].totalPoints >= x.totalPoints
    requires InOrder(seen, s)
    requires forall e :: e in s ==> seen(e.userId) < seen(x.userId)
    ensures InOrder(seen, Insert(x, s))
    decreases |s|, 0
  {
    var tail := s[1..];
    assert forall e :: e in tail ==> e in s;
    InOrderTail(seen, s);
    InsertKeepsOrder(seen, x, tail);
    assert Precedes(seen, s[0], x) by {
      assert s[0] in s;
    }
    InsertStaysBehind(seen, s[0], x, tail);
    ConsInOrder(seen, s[0], Insert(x, tail));
  }

  lemma InsertInFront(seen: string -> int, x: Entry, s: seq<Entry>)
    requires s != [] && s[0].totalPoints < x.totalPoints
    requires InOrder(seen, s)
    ensures InOrder(seen, Insert(x, s))
  {
    forall k | 0 <= k < |s| ensures Precedes(seen, x, s[k]) {
      if k > 0 {
        assert Precedes(seen, s[0], s[k]);
      }
    }
    ConsInOrder(seen, x, s);
  }

  lemma InOrderTail(seen: string -> int, s: seq<Entry>)
    requires s != [] && InOrder(seen, s)
    ensures InOrder(seen, s[1..])
  {
    var tail := s[1..];
    forall k, l | 0 <= k < l < |tail| ensures Precedes(seen, tail[k], tail[l]) {
      assert tail[k] == s[k + 1] && tail[l] == s[l + 1];
    }
  }

  /** An entry that comes before every entry of an ordered sequence can be put in front of it. */
  lemma ConsInOrder(seen: string -> int, h: Entry, r: seq<Entry>)
    requires InOrder(seen, r)
    requires forall k :: 0 <= k < |r| ==> Precedes(seen, h, r[k])
    ensures InOrder(seen, [h] + r)
  {
    var c := [h] + r;
    forall k, l | 0 <= k < l < |c| ensures Precedes(seen, c[k], c[l]) {
      assert c[l] == r[l - 1];
      if k > 0 {
        assert c[k] == r[k - 1];
      }
    }
  }

  /** Whatever comes before `x` and every entry of `s` still comes before every entry after inserting. */
  lemma {:induction false} InsertStaysBehind(seen: string -> int, h: Entry, x: Entry, s: seq<Entry>)
    requires Precedes(seen, h, x)
    requires forall k :: 0 <= k < |s| ==> Precedes(seen, h, s[k])
    ensures forall k :: 0 <= k < |Insert(x, s)| ==> Precedes(seen, h, Insert(x, s)[k])
  {
    if s != [] && s[0].totalPoints >= x.totalPoints {
      InsertStaysBehind(seen, h, x, s[1..]);
    }
  }

  /**
   * Sorting entries listed by increasing key gives the order of `Precedes`:
   * by points, highest first, and entries tied on points by their keys.
   */
  lemma {:induction false} SortDescOrdersTies(seen: string -> int, s: seq<Entry>)
    requires SeenOrder(seen, s)
    ensures InOrder(seen, SortDesc(s))
  {
    if s != [] {
      var init := s[..|s| - 1];
      var x := s[|s| - 1];
      assert SeenOrder(seen, init);
      SortDescOrdersTies(seen, init);
      SortDescPermutes(init);
      forall e | e in SortDesc(init) ensures seen(e.userId) < seen(x.userId) {
        assert e in multiset(init);
        var m :| 0 <= m < |init| && init[m] == e;
        assert s[m] == e;
      }
      InsertKeepsOrder(seen, x, SortDesc(init));
    }
  }

  /** The in-place sort of the leaderboard array. */
  method SortByPoints(a: array<Entry>)
    modifies a
    ensures a[..] == SortDesc(old(a[..]))
  {
    ghost var orig := a[..];
    var i := 0;
    while i < a.Length
      invariant 0 <= i <= a.Length
      invariant a[..i] == SortDesc(orig[..i])
      invariant forall m :: i <= m < a.Length ==> a[m] == orig[m]
    {
      SortDescIsSorted(orig[..i]);
      InsertNext(a, i);
      assert orig[..i + 1][..i] == orig[..i];
      i := i + 1;
    }
    assert orig[..a.Length] == orig;
  }

  /** One pass of the insertion sort: shifts the sorted prefix right until `a[i]` fits. */
  method InsertNext(a: array<Entry>, i: nat)
    requires i < a.Length && SortedDesc(a[..i])
    modifies a
    ensures a[..i + 1] == Insert(old(a[i]), old(a[..i]))
    ensures forall m :: i < m < a.Length ==> a[m] == old(a[m])
  {
    ghost var prev := a[..i];
    var x := a[i];
    var j := i;
    while j > 0 && a[j - 1].totalPoints < x.totalPoints
      invariant 0 <= j <= i
      invariant forall m :: 0 <= m < j ==> a[m] == prev[m]
      invariant forall m :: j < m <= i ==> a[m] == prev[m - 1]
      invariant forall m :: j <= m < i ==> prev[m].totalPoints < x.totalPoints
      invariant forall m :: i < m < a.Length ==> a[m] == old(a[m])
    {
      a[j] := a[j - 1];
      j := j - 1;
    }
    a[j] := x;
    ShiftedIsInsert(x, prev, j, a[..i + 1]);
  }

  /** The array after the shifting loop: the prefix, `x`, then the rest moved up by one. */
  lemma ShiftedIsInsert(x: Entry, prev: seq<Entry>, j: nat, b: seq<Entry>)
    requires SortedDesc(prev) && j <= |prev| && |b| == |prev| + 1
    requires j > 0 ==> prev[j - 1].totalPoints >= x.totalPoints
    requires forall m :: j <= m < |prev| ==> prev[m].totalPoints < x.totalPoints
    requires forall m :: 0 <= m < j ==> b[m] == prev[m]
    requires b[j] == x
    requires forall m :: j < m < |b| ==> b[m] == prev[m - 1]
    ensures b == Insert(x, prev)
  {
    InsertAt(x, prev, j);
    var target := prev[..j] + [x] + prev[j..];
    forall m | 0 <= m < |b|
      ensures b[m] == target[m]
    {
      if m < j {
        assert target[m] == prev[m];
      } else if m > j {
        assert target[m] == prev[m - 1];
      }
    }
  }
}
