/**
 * The leaderboard: a list of `{ username, score }` entries kept in the order
 * in which usernames first won.  A win finds the winner's entry (or appends a
 * new one) and adds one to it; the leaderboard route answers with the list
 * sorted by score, highest first.
 */
module Leaderboard {
  import opened Wrappers

  datatype Entry = Entry(username: string, score: nat)

  /** The position `board.find(u => u.username === username)` stops at. */
  function IndexOf(board: seq<Entry>, username: string): (r: Option<nat>)
    ensures r.Some? ==> r.value < |board| && board[r.value].username == username
    ensures r.Some? ==> forall j :: 0 <= j < r.value ==> board[j].username != username
    ensures r.None? <==> forall j :: 0 <= j < |board| ==> board[j].username != username
  {
    if board == [] then None
    else if board[0].username == username then Some(0)
    else match IndexOf(board[1..], username)
      case Some(k) => Some(k + 1)
      case None => None
  }

  /** The score the board holds for `username`: that of its first entry, 0 when it has none. */
  function ScoreOf(board: seq<Entry>, username: string): nat {
    match IndexOf(board, username)
    case Some(i) => board[i].score
    case None => 0
  }

  /** No username has two entries. */
  predicate UniqueNames(board: seq<Entry>) {
    forall i, j :: 0 <= i < j < |board| ==> board[i].username != board[j].username
  }

  /**
   * The board after `incrementScore(username)`: the first entry of `username`
   * gains one point in place, or `{ username, 1 }` is appended when there is none.
   */
  function Incremented(board: seq<Entry>, username: string): (r: seq<Entry>)
    ensures (exists i :: 0 <= i < |board| && board[i].username == username) ==>
      |r| == |board| &&
      exists i :: 0 <= i < |board| && board[i].username == username &&
        (forall j :: 0 <= j < i ==> board[j].username != username) &&
        r[i] == Entry(username, board[i].score + 1) &&
        (forall j :: 0 <= j < |board| && j != i ==> r[j] == board[j])
    ensures (forall i :: 0 <= i < |board| ==> board[i].username != username) ==>
      r == board + [Entry(username, 1)]
  {
    match IndexOf(board, username)
    case Some(i) => board[i := Entry(username, board[i].score + 1)]
    case None => board + [Entry(username, 1)]
  }

  /** `board.find(...)` as a linear search. */
  method FindEntry(board: seq<Entry>, username: string) returns (r: Option<nat>)
    ensures r == IndexOf(board, username)
  {
    var i := 0;
    while i < |board|
      invariant 0 <= i <= |board|
      invariant forall j :: 0 <= j < i ==> board[j].username != username
    {
      if board[i].username == username {
        return Some(i);
      }
      i := i + 1;
    }
    return None;
  }

  /** `incrementScore`: find-or-append, then add one to the entry. */
  method IncrementScore(board: seq<Entry>, username: string) returns (updated: seq<Entry>)
    ensures updated == Incremented(board, username)
  {
    var found := FindEntry(board, username);
    if found.None? {
      updated := board + [Entry(username, 0)];
      found := Some(|board|);
    } else {
      updated := board;
    }
    var i := found.value;
    updated := updated[i := Entry(username, updated[i].score + 1)];
  }

  /** A win adds exactly one point to the winner. */
  lemma IncrementAddsOne(board: seq<Entry>, username: string)
    ensures ScoreOf(Incremented(board, username), username) == ScoreOf(board, username) + 1
  {
    var r := Incremented(board, username);
    assert forall j :: 0 <= j < |board| ==> r[j].username == board[j].username;
    match IndexOf(board, username)
    case Some(i) =>
      assert r[i] == Entry(username, board[i].score + 1);
    case None =>
      assert r[|board|] == Entry(username, 1);
  }

  /** A board that extends `a` with the same usernames, and no more `u`, finds `u` where `a` does. */
  lemma SameNamesSameIndex(a: seq<Entry>, b: seq<Entry>, u: string)
    requires |a| <= |b| && forall j :: 0 <= j < |a| ==> b[j].username == a[j].username
    requires forall j :: |a| <= j < |b| ==> b[j].username != u
    ensures IndexOf(b, u) == IndexOf(a, u)
  {
    match IndexOf(a, u)
    case Some(i) =>
      assert b[i].username == u;
      assert IndexOf(b, u).Some?;
      var k := IndexOf(b, u).value;
      assert k <= i;
      assert a[k].username == u;
      assert k == i;
    case None =>
      assert forall j :: 0 <= j < |b| ==> b[j].username != u;
      assert IndexOf(b, u).None?;
  }

  /** A win leaves every other player's score as it was. */
  lemma IncrementKeepsOthers(board: seq<Entry>, username: string, other: string)
    requires other != username
    ensures ScoreOf(Incremented(board, username), other) == ScoreOf(board, other)
  {
    var r := Incremented(board, username);
    match IndexOf(board, username)
    case Some(i) =>
      assert r == board[i := Entry(username, board[i].score + 1)];
      SameNamesSameIndex(board, r, other);
      if IndexOf(board, other).Some? {
        assert r[IndexOf(board, other).value] == board[IndexOf(board, other).value];
      }
    case None =>
      assert r == board + [Entry(username, 1)];
      SameNamesSameIndex(board, r, other);
      if IndexOf(board, other).Some? {
        assert r[IndexOf(board, other).value] == board[IndexOf(board, other).value];
      }
  }

  /** A board without duplicate usernames keeps that property across a win. */
  lemma IncrementKeepsNamesUnique(board: seq<Entry>, username: string)
    requires UniqueNames(board)
    ensures UniqueNames(Incremented(board, username))
  {
    var r := Incremented(board, username);
    assert forall j :: 0 <= j < |board| ==> r[j].username == board[j].username;
  }

  /** Scores never go up the list: `b.score - a.score` order. */
  predicate SortedByScore(s: seq<Entry>) {
    forall i, j :: 0 <= i < j < |s| ==> s[i].score >= s[j].score
  }

  /** The entries of `s` whose score is `k`, in order. */
  function WithScore(s: seq<Entry>, k: nat): seq<Entry> {
    if s == [] then [] else (if s[0].score == k then [s[0]] else []) + WithScore(s[1..], k)
  }

  /** Inserts `e` ahead of the first entry whose score does not exceed its own. */
  function InsertByScore(e: Entry, s: seq<Entry>): (r: seq<Entry>)
    ensures multiset(r) == multiset(s) + multiset{e}
  {
    if s == [] then [e]
    else if e.score >= s[0].score then [e] + s
    else
      assert s == [s[0]] + s[1..];
      [s[0]] + InsertByScore(e, s[1..])
  }

  lemma {:induction false} InsertKeepsOrder(e: Entry, s: seq<Entry>)
    requires SortedByScore(s)
    ensures SortedByScore(InsertByScore(e, s))
    ensures s != [] ==> InsertByScore(e, s)[0] == e || InsertByScore(e, s)[0] == s[0]
  {
    if s != [] && e.score < s[0].score {
      var rest := InsertByScore(e, s[1..]);
      InsertKeepsOrder(e, s[1..]);
      assert rest[0].score <= s[0].score;
      var r := [s[0]] + rest;
      forall i, j | 0 <= i < j < |r| ensures r[i].score >= r[j].score {
        if i == 0 && j > 1 { assert rest[0].score >= rest[j - 1].score; }
      }
    }
  }

  /**
   * `board.sort((a, b) => b.score - a.score)`: the stable sort by score,
   * highest first, as an insertion sort.
   */
  function SortByScoreDesc(board: seq<Entry>): (r: seq<Entry>)
    ensures SortedByScore(r)
    ensures multiset(r) == multiset(board)
  {
    if board == [] then []
    else
      var rest := SortByScoreDesc(board[1..]);
      InsertKeepsOrder(board[0], rest);
      assert board == [board[0]] + board[1..];
      InsertByScore(board[0], rest)
  }

  lemma WithScoreCons(x: Entry, s: seq<Entry>, k: nat)
    ensures WithScore([x] + s, k) == (if x.score == k then [x] else []) + WithScore(s, k)
  {
    assert ([x] + s)[1..] == s;
  }

  lemma {:induction false} InsertKeepsTies(e: Entry, s: seq<Entry>, k: nat)
    ensures WithScore(InsertByScore(e, s), k) == (if e.score == k then [e] else []) + WithScore(s, k)
  {
    if s == [] {
      WithScoreCons(e, [], k);
    } else if e.score >= s[0].score {
      WithScoreCons(e, s, k);
    } else {
      var rest := InsertByScore(e, s[1..]);
      InsertKeepsTies(e, s[1..], k);
      WithScoreCons(s[0], rest, k);
      WithScoreCons(s[0], s[1..], k);
      assert s == [s[0]] + s[1..];
      if e.score == k {
        assert WithScore(s, k) == WithScore(s[1..], k);
      } else {
        assert WithScore(rest, k) == WithScore(s[1..], k);
      }
    }
  }

  /**
   * The sort is stable: for every score, the entries holding it come out in
   * the order they had on the board.
   */
  lemma {:induction false} SortIsStable(board: seq<Entry>, k: nat)
    ensures WithScore(SortByScoreDesc(board), k) == WithScore(board, k)
  {
    if board != [] {
      SortIsStable(board[1..], k);
      InsertKeepsTies(board[0], SortByScoreDesc(board[1..]), k);
    }
  }
}
