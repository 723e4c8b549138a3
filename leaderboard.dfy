/**
 * The season leaderboard: scored prediction rows grouped per player into an
 * insertion-ordered dictionary, turned into an array, sorted by points
 * (stable, highest first) and re-ranked 1..N by position; and the medal
 * shown in the rank column.
 */
module Leaderboard {
  import opened Grouping
  import opened Ranking

  /** The array built from `Object.entries(grouped)`, ranks numbered by dictionary position. */
  function GroupedEntries(rows: seq<Row>): (s: seq<Entry>)
    ensures |s| == |UserIds(rows)|
  {
    var ids := UserIds(rows);
    seq(|ids|, k requires 0 <= k < |ids| =>
      Entry(ids[k], FirstTeam(rows, ids[k]), PointsOf(rows, ids[k]), CountOf(rows, ids[k]), k + 1))
  }

  /** Every entry's rank set to its 1-based position. */
  function Ranked(s: seq<Entry>): (r: seq<Entry>)
    ensures |r| == |s|
  {
    seq(|s|, k requires 0 <= k < |s| => s[k].(rank := k + 1))
  }

  /** The leaderboard the page shows for `rows`. */
  function Board(rows: seq<Row>): seq<Entry>
  {
    Ranked(SortDesc(GroupedEntries(rows)))
  }

  /** The tie-break key: the index of the player's first row. */
  function FirstSeen(rows: seq<Row>): string -> int
  {
    u => FirstIndex(rows, u)
  }

  /**
   * Leaderboard order: `a` has more points than `b`, or as many and `a`'s
   * first row comes before `b`'s (`Precedes` keyed by `FirstSeen`).
   */
  predicate Ahead(rows: seq<Row>, a: Entry, b: Entry)
  {
    Precedes(FirstSeen(rows), a, b)
  }

  /**
   * The grouping loop: one pass over the rows, creating a player's
   * accumulator on their first row and adding points and one prediction on
   * every row.  `keys` is the dictionary's insertion order.
   */
  method GroupRows(rows: seq<Row>) returns (keys: seq<string>, grouped: map<string, Totals>)
    ensures keys == UserIds(rows)
    ensures forall u :: u in grouped <==> u in keys
    ensures forall u :: u in grouped ==>
      grouped[u] == Totals(FirstTeam(rows, u), PointsOf(rows, u), CountOf(rows, u))
  {
    keys, grouped := [], map[];
    for i := 0 to |rows|
      invariant keys == UserIds(rows[..i])
      invariant forall u :: u in grouped <==> u in keys
      invariant forall u :: u in grouped ==>
        grouped[u] == Totals(FirstTeam(rows[..i], u), PointsOf(rows[..i], u), CountOf(rows[..i], u))
    {
      var row := rows[i];
      ghost var before := grouped;
      if row.userId !in grouped {
        grouped := grouped[row.userId := Totals(TeamLabel(row.teamName), 0, 0)];
        keys := keys + [row.userId];
      }
      var t := grouped[row.userId];
      grouped := grouped[row.userId := t.(totalPoints := t.totalPoints + PointsValue(row.points),
                                          predictionsCount := t.predictionsCount + 1)];
      GroupStep(rows, i, before, t, grouped);
    }
    assert rows[..|rows|] == rows;
  }

  /** The grouping dictionary after one more row holds the totals of the longer prefix. */
  lemma GroupStep(rows: seq<Row>, i: nat, before: map<string, Totals>, t: Totals, after: map<string, Totals>)
    requires i < |rows|
    requires forall u :: u in before <==> u in UserIds(rows[..i])
    requires forall u :: u in before ==>
      before[u] == Totals(FirstTeam(rows[..i], u), PointsOf(rows[..i], u), CountOf(rows[..i], u))
    requires t == if rows[i].userId in before then before[rows[i].userId] else Totals(TeamLabel(rows[i].teamName), 0, 0)
    requires forall u :: u in after <==> u in before || u == rows[i].userId
    requires forall u :: u in before && u != rows[i].userId ==> after[u] == before[u]
    requires after[rows[i].userId] == t.(totalPoints := t.totalPoints + PointsValue(rows[i].points),
                                         predictionsCount := t.predictionsCount + 1)
    ensures forall u :: u in after ==>
      after[u] == Totals(FirstTeam(rows[..i + 1], u), PointsOf(rows[..i + 1], u), CountOf(rows[..i + 1], u))
    ensures UserIds(rows[..i + 1]) ==
      if rows[i].userId in UserIds(rows[..i]) then UserIds(rows[..i]) else UserIds(rows[..i]) + [rows[i].userId]
  {
    var p, q, row := rows[..i], rows[..i + 1], rows[i];
    PrefixStep(rows, i);
    forall v | v in after
      ensures after[v] == Totals(FirstTeam(q, v), PointsOf(q, v), CountOf(q, v))
    {
      if v != row.userId {
        assert v in before && before[v] == after[v];
        assert PointsOf(q, v) == PointsOf(p, v) && CountOf(q, v) == CountOf(p, v);
        assert FirstTeam(q, v) == FirstTeam(p, v);
      } else {
        assert PointsOf(q, v) == PointsOf(p, v) + PointsValue(row.points);
        assert CountOf(q, v) == CountOf(p, v) + 1;
        if v in before {
          assert FirstTeam(q, v) == FirstTeam(p, v);
        } else {
          UserIdsAreThePlayers(p);
          CountPositiveIffOccurs(p, v);
          assert FirstTeam(q, v) == TeamLabel(row.teamName);
        }
      }
    }
  }

  /** What one more row changes in the grouping of a prefix. */
  lemma PrefixStep(rows: seq<Row>, i: nat)
    requires i < |rows|
    ensures var p, q, u := rows[..i], rows[..i + 1], rows[i].userId;
      && UserIds(q) == (if u in UserIds(p) then UserIds(p) else UserIds(p) + [u])
      && (forall v :: PointsOf(q, v) == PointsOf(p, v) + (if v == u then PointsValue(rows[i].points) else 0))
      && (forall v :: CountOf(q, v) == CountOf(p, v) + (if v == u then 1 else 0))
      && (forall v :: v in UserIds(p) ==> FirstTeam(q, v) == FirstTeam(p, v))
      && (u !in UserIds(p) ==> FirstTeam(q, u) == TeamLabel(rows[i].teamName))
  {
    var p, q, u := rows[..i], rows[..i + 1], rows[i].userId;
    assert q[..i] == p;
    UserIdsAreThePlayers(p);
    FirstIndexOfPrefix(q, i);
    forall v | v in UserIds(p) ensures FirstTeam(q, v) == FirstTeam(p, v) {
      var j :| 0 <= j < i && p[j].userId == v;
      assert q[j].userId == v;
    }
  }

  /**
   * `fetchLeaderboard` after the query: nothing to do for no rows; otherwise
   * group, build the array, sort it in place and overwrite every rank with
   * its position.
   */
  method FetchLeaderboard(rows: seq<Row>) returns (board: seq<Entry>)
    ensures board == Board(rows)
    ensures rows == [] ==> board == []
    ensures |board| == |UserIds(rows)|
    ensures forall k :: 0 <= k < |board| ==> board[k].rank == k + 1
    ensures forall k :: 0 <= k < |board| ==>
      && Occurs(rows, board[k].userId)
      && board[k].totalPoints == PointsOf(rows, board[k].userId)
      && board[k].predictionsCount == CountOf(rows, board[k].userId)
      && board[k].teamName == FirstTeam(rows, board[k].userId)
    ensures forall u :: Occurs(rows, u) ==> exists k :: 0 <= k < |board| && board[k].userId == u
    ensures forall k, l :: 0 <= k < l < |board| ==> Ahead(rows, board[k], board[l])
  {
    if |rows| == 0 {
      board := [];
    } else {
      var keys, grouped := GroupRows(rows);
      var a := ToEntries(rows, keys, grouped);
      SortByPoints(a);
      RankByPosition(a);
      board := a[..];
    }
    BoardHoldsTotals(rows);
    BoardCoversPlayers(rows);
    BoardInLeaderboardOrder(rows);
  }

  /** `Object.entries(grouped).map(...)`: one entry per key, in key order, ranked by position. */
  method ToEntries(rows: seq<Row>, keys: seq<string>, grouped: map<string, Totals>) returns (a: array<Entry>)
    requires keys == UserIds(rows)
    requires forall u :: u in grouped <==> u in keys
    requires forall u :: u in grouped ==>
      grouped[u] == Totals(FirstTeam(rows, u), PointsOf(rows, u), CountOf(rows, u))
    ensures fresh(a)
    ensures a[..] == GroupedEntries(rows)
  {
    a := new Entry[|keys|];
    for k := 0 to |keys|
      invariant forall m :: 0 <= m < k ==> a[m] == GroupedEntries(rows)[m]
    {
      var t := grouped[keys[k]];
      a[k] := Entry(keys[k], t.teamName, t.totalPoints, t.predictionsCount, k + 1);
    }
  }

  /** The second pass over the sorted array: every rank becomes the entry's 1-based position. */
  method RankByPosition(a: array<Entry>)
    modifies a
    ensures a[..] == Ranked(old(a[..]))
  {
    ghost var sorted := a[..];
    for k := 0 to a.Length
      invariant forall m :: 0 <= m < k ==> a[m] == sorted[m].(rank := m + 1)
      invariant forall m :: k <= m < a.Length ==> a[m] == sorted[m]
    {
      a[k] := a[k].(rank := k + 1);
    }
  }

  /** Each leaderboard entry carries its player's sum, count and first team name. */
  lemma BoardHoldsTotals(rows: seq<Row>)
    ensures var b := Board(rows);
      forall k :: 0 <= k < |b| ==>
        && b[k].rank == k + 1
        && Occurs(rows, b[k].userId)
        && b[k].totalPoints == PointsOf(rows, b[k].userId)
        && b[k].predictionsCount == CountOf(rows, b[k].userId)
        && b[k].teamName == FirstTeam(rows, b[k].userId)
  {
    var g := GroupedEntries(rows);
    var s := SortDesc(g);
    var b := Board(rows);
    SortDescPermutes(g);
    UserIdsAreThePlayers(rows);
    forall k | 0 <= k < |b|
      ensures Occurs(rows, b[k].userId)
      ensures b[k].totalPoints == PointsOf(rows, b[k].userId)
      ensures b[k].predictionsCount == CountOf(rows, b[k].userId)
      ensures b[k].teamName == FirstTeam(rows, b[k].userId)
    {
      assert s[k] in multiset(g);
      var m :| 0 <= m < |g| && g[m] == s[k];
      assert UserIds(rows)[m] in UserIds(rows);
    }
  }

  /** Exactly one entry per player: every player with a row appears, and no player twice. */
  lemma BoardCoversPlayers(rows: seq<Row>)
    ensures |Board(rows)| == |UserIds(rows)|
    ensures forall u :: Occurs(rows, u) ==> exists k :: 0 <= k < |Board(rows)| && Board(rows)[k].userId == u
    ensures rows == [] ==> Board(rows) == []
  {
    var g := GroupedEntries(rows);
    var s := SortDesc(g);
    var b := Board(rows);
    SortDescPermutes(g);
    UserIdsAreThePlayers(rows);
    forall u | Occurs(rows, u) ensures exists k :: 0 <= k < |b| && b[k].userId == u {
      var m :| 0 <= m < |UserIds(rows)| && UserIds(rows)[m] == u;
      assert g[m] in multiset(s);
      var k :| 0 <= k < |s| && s[k] == g[m];
      assert b[k].userId == u;
    }
  }

  /**
   * The leaderboard is sorted by points, highest first; players tied on
   * points keep the order of their first rows; so no player is listed twice.
   */
  lemma BoardInLeaderboardOrder(rows: seq<Row>)
    ensures var b := Board(rows);
      && (forall k, l :: 0 <= k < l < |b| ==> Ahead(rows, b[k], b[l]))
      && (forall k, l :: 0 <= k < l < |b| ==> b[k].totalPoints >= b[l].totalPoints)
      && (forall k, l :: 0 <= k < l < |b| ==> b[k].userId != b[l].userId)
  {
    var g := GroupedEntries(rows);
    var seen := FirstSeen(rows);
    var ids := UserIds(rows);
    UserIdsInFirstSeenOrder(rows);
    assert SeenOrder(seen, g) by {
      forall k, l | 0 <= k < l < |g| ensures seen(g[k].userId) < seen(g[l].userId) {
        assert g[k].userId == ids[k] && g[l].userId == ids[l];
      }
    }
    SortDescOrdersTies(seen, g);
    var s := SortDesc(g);
    var b := Board(rows);
    forall k, l | 0 <= k < l < |b| ensures Ahead(rows, b[k], b[l]) {
      assert Precedes(seen, s[k], s[l]);
    }
    BoardHoldsTotals(rows);
  }

  /** The rank column: the top three ranks show a medal, every other rank its number. */
  datatype RankCell = Medal(icon: string) | Number(rank: int)

  const Gold := "\U{1F947}"
  const Silver := "\U{1F948}"
  const Bronze := "\U{1F949}"

  /** `getMedalIcon`. */
  function MedalIcon(rank: int): RankCell
  {
    match rank
    case 1 => Medal(Gold)
    case 2 => Medal(Silver)
    case 3 => Medal(Bronze)
    case _ => Number(rank)
  }

  /** Distinct ranks show distinct cells, so the cell always tells the rank. */
  lemma MedalIconIsInjective(r1: int, r2: int)
    requires MedalIcon(r1) == MedalIcon(r2)
    ensures r1 == r2
  {
  }

  /** On the leaderboard, exactly the first three entries get a medal, in gold, silver, bronze order. */
  lemma TopThreeGetMedals(rows: seq<Row>)
    ensures var b := Board(rows);
      && (forall k :: 0 <= k < |b| ==> (MedalIcon(b[k].rank).Medal? <==> k < 3))
      && (|b| > 0 ==> MedalIcon(b[0].rank) == Medal(Gold))
      && (|b| > 1 ==> MedalIcon(b[1].rank) == Medal(Silver))
      && (|b| > 2 ==> MedalIcon(b[2].rank) == Medal(Bronze))
      && (forall k :: 3 <= k < |b| ==> MedalIcon(b[k].rank) == Number(k + 1))
  {
    BoardHoldsTotals(rows);
  }
}
