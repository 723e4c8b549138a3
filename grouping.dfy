/**
 * The scored prediction rows the leaderboard reads and what they say about
 * each player: which players appear, in which order they first appear, and
 * each player's sum of points, number of rows and first team name.
 */
module Grouping {
  import opened Common

  /** One row of `predictions` joined with the player's profile. */
  datatype Row = Row(userId: string, teamName: Option<string>, points: Option<int>)

  /** Per-player accumulator of the grouping dictionary. */
  datatype Totals = Totals(teamName: string, totalPoints: int, predictionsCount: nat)

  const UnknownTeam := "Unknown Team"

  /** The team shown for a row: a missing or empty name gives the "Unknown Team" placeholder. */
  function TeamLabel(name: Option<string>): string
  {
    if name.Some? && name.value != "" then name.value else UnknownTeam
  }

  /** A row's points, with a missing value counting as 0. */
  function PointsValue(points: Option<int>): int
  {
    if points.Some? then points.value else 0
  }

  predicate Occurs(rows: seq<Row>, u: string)
  {
    exists j :: 0 <= j < |rows| && rows[j].userId == u
  }

  /** The distinct players, in the order of their first row. */
  function UserIds(rows: seq<Row>): seq<string>
  {
    if rows == [] then []
    else
      var ids := UserIds(rows[..|rows| - 1]);
      var u := rows[|rows| - 1].userId;
      if u in ids then ids else ids + [u]
  }

  /** Sum of the player's points. */
  function PointsOf(rows: seq<Row>, u: string): int
  {
    if rows == [] then 0
    else
      var last := rows[|rows| - 1];
      PointsOf(rows[..|rows| - 1], u) + (if last.userId == u then PointsValue(last.points) else 0)
  }

  /** Number of the player's rows. */
  function CountOf(rows: seq<Row>, u: string): nat
  {
    if rows == [] then 0
    else CountOf(rows[..|rows| - 1], u) + (if rows[|rows| - 1].userId == u then 1 else 0)
  }

  /** Index of the player's first row, or `|rows|` when there is none. */
  function FirstIndex(rows: seq<Row>, u: string): (i: nat)
    ensures i <= |rows|
    ensures i < |rows| ==> rows[i].userId == u
    ensures forall j :: 0 <= j < i ==> rows[j].userId != u
  {
    if rows == [] then 0
    else if rows[0].userId == u then 0
    else 1 + FirstIndex(rows[1..], u)
  }

  /** The team label of the player's first row. */
  function FirstTeam(rows: seq<Row>, u: string): string
  {
    var i := FirstIndex(rows, u);
    if i < |rows| then TeamLabel(rows[i].teamName) else UnknownTeam
  }

  predicate Distinct(ids: seq<string>)
  {
    forall p, q :: 0 <= p < q < |ids| ==> ids[p] != ids[q]
  }

  /** Exactly the players with a row are listed, each once. */
  lemma {:induction false} UserIdsAreThePlayers(rows: seq<Row>)
    ensures forall u :: u in UserIds(rows) <==> Occurs(rows, u)
    ensures Distinct(UserIds(rows))
  {
    if rows != [] {
      var init := rows[..|rows| - 1];
      UserIdsAreThePlayers(init);
      forall u ensures u in UserIds(rows) <==> Occurs(rows, u) {
        if Occurs(init, u) {
          var j :| 0 <= j < |init| && init[j].userId == u;
          assert rows[j].userId == u;
        }
        if Occurs(rows, u) && u != rows[|rows| - 1].userId {
          var j :| 0 <= j < |rows| && rows[j].userId == u;
          assert init[j].userId == u;
        }
      }
    }
  }

  /** The players are listed in the order of their first rows. */
  lemma {:induction false} UserIdsInFirstSeenOrder(rows: seq<Row>)
    ensures forall p, q :: 0 <= p < q < |UserIds(rows)| ==>
      FirstIndex(rows, UserIds(rows)[p]) < FirstIndex(rows, UserIds(rows)[q])
    ensures forall p :: 0 <= p < |UserIds(rows)| ==> FirstIndex(rows, UserIds(rows)[p]) < |rows|
  {
    if rows != [] {
      var n := |rows| - 1;
      var init, u := rows[..n], rows[n].userId;
      var before := UserIds(init);
      UserIdsInFirstSeenOrder(init);
      FirstIndexOfPrefix(rows, n);
      forall p | 0 <= p < |before| ensures FirstIndex(rows, before[p]) == FirstIndex(init, before[p]) {
        assert FirstIndex(init, before[p]) < n;
      }
      if u !in before {
        UserIdsAreThePlayers(init);
        assert UserIds(rows) == before + [u];
      }
    }
  }

  /** Cutting the rows after the player's first row keeps that row's index. */
  lemma FirstIndexOfPrefix(rows: seq<Row>, n: nat)
    requires n <= |rows|
    ensures forall u :: FirstIndex(rows, u) < n ==> FirstIndex(rows[..n], u) == FirstIndex(rows, u)
    ensures forall u :: FirstIndex(rows, u) >= n ==> FirstIndex(rows[..n], u) == n
  {
  }

  /** A player has rows exactly when the count is positive; absent players score 0. */
  lemma {:induction false} CountPositiveIffOccurs(rows: seq<Row>, u: string)
    ensures CountOf(rows, u) > 0 <==> Occurs(rows, u)
    ensures !Occurs(rows, u) ==> PointsOf(rows, u) == 0
  {
    if rows != [] {
      var init := rows[..|rows| - 1];
      CountPositiveIffOccurs(init, u);
      if Occurs(init, u) {
        var j :| 0 <= j < |init| && init[j].userId == u;
        assert rows[j].userId == u;
      }
      if Occurs(rows, u) && rows[|rows| - 1].userId != u {
        var j :| 0 <= j < |rows| && rows[j].userId == u;
        assert init[j].userId == u;
      }
    }
  }

  /**
   * The team name comes from the first row alone: when that row has no name,
   * the placeholder stays even if a later row has one.
   */
  lemma FirstRowDecidesTeam(rows: seq<Row>, u: string, j: nat)
    requires j < |rows| && rows[j].userId == u
    requires forall i :: 0 <= i < j ==> rows[i].userId != u
    ensures FirstTeam(rows, u) == TeamLabel(rows[j].teamName)
    ensures rows[j].teamName.None? || rows[j].teamName == Some("") ==> FirstTeam(rows, u) == UnknownTeam
  {
  }
}
