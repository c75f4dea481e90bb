/**
 * server/services/LeaderboardService.ts: the leaderboard table is rebuilt
 * from per-user statistics. Each user scores 5 per live post and 3 per like
 * received; the OVERALL board holds the top 100 users by score, and the
 * COMPANY board the top 100 of those with a company e-mail address.
 */
module Leaderboard {
  import opened Wrappers
  import opened Sorting
  import Text

  const BoardSize := 100
  const CompanyDomain := "@catchtable.co.kr"

  /** One row of the statistics query of lines 13-23. */
  datatype UserStats = UserStats(id: int, email: Option<string>, contentCount: nat, receivedLikes: nat)

  /** A user with their score (lines 26-41). */
  datatype ScoredUser = ScoredUser(id: int, email: Option<string>, contentCount: nat, receivedLikes: nat, score: nat)

  /** A leaderboard row (lines 53-60); the key column is always null here. */
  datatype BoardEntry = BoardEntry(kind: string, userId: int, rank: nat, score: nat, contentCount: nat, receivedLikes: nat)

  /** The scoring of line 30. */
  function Score(contentCount: nat, receivedLikes: nat): (score: nat)
    ensures score >= 5 * contentCount && score >= 3 * receivedLikes
    ensures score == 0 <==> contentCount == 0 && receivedLikes == 0
  {
    contentCount * 5 + receivedLikes * 3
  }

  function Scored(s: UserStats): (u: ScoredUser)
    ensures u.id == s.id && u.email == s.email && u.score == Score(s.contentCount, s.receivedLikes)
  {
    ScoredUser(s.id, s.email, s.contentCount, s.receivedLikes, Score(s.contentCount, s.receivedLikes))
  }

  function ScoreAll(stats: seq<UserStats>): (r: seq<ScoredUser>)
    ensures |r| == |stats|
    ensures forall k :: 0 <= k < |r| ==> r[k] == Scored(stats[k])
  {
    seq(|stats|, k requires 0 <= k < |stats| => Scored(stats[k]))
  }

  /** The comparator of line 46 as "may come first": the higher score. */
  function ByScoreDesc(a: ScoredUser, b: ScoredUser): bool
  {
    a.score >= b.score
  }

  lemma ByScoreDescTotal()
    ensures TotalPreorder(ByScoreDesc)
  {
  }

  function Min(a: nat, b: nat): nat
  {
    if a <= b then a else b
  }

  /** insertLeaderboard (lines 44-64): the rows inserted for one board; none for an empty one. */
  function Board(kind: string, users: seq<ScoredUser>): seq<BoardEntry>
  {
    var sorted := SortBy(users, ByScoreDesc);
    var top := sorted[..Min(BoardSize, |sorted|)];
    seq(|top|, k requires 0 <= k < |top| =>
      BoardEntry(kind, top[k].id, k + 1, top[k].score, top[k].contentCount, top[k].receivedLikes))
  }

  /** The company filter of line 76: an e-mail that is present and ends with the company domain. */
  predicate IsCompany(u: ScoredUser)
  {
    u.email.Some? && Text.EndsWith(u.email.value, CompanyDomain)
  }

  function CompanyUsers(users: seq<ScoredUser>): (r: seq<ScoredUser>)
    ensures |r| <= |users|
    ensures forall k :: 0 <= k < |r| ==> IsCompany(r[k]) && r[k] in users
    ensures forall k :: 0 <= k < |users| && IsCompany(users[k]) ==> users[k] in r
  {
    if users == [] then []
    else
      var n := |users| - 1;
      var init := CompanyUsers(users[..n]);
      assert forall k :: 0 <= k < n ==> users[..n][k] == users[k];
      if IsCompany(users[n]) then init + [users[n]] else init
  }

  /** The leaderboard table. */
  class LeaderboardTable {
    var rows: seq<BoardEntry>

    constructor(rows: seq<BoardEntry>)
      ensures this.rows == rows
    {
      this.rows := rows;
    }

    /** refresh (lines 7-88): the table is emptied, then the two boards are inserted. */
    method Refresh(stats: seq<UserStats>)
      modifies this
      ensures rows == Board("OVERALL", ScoreAll(stats)) + Board("COMPANY", CompanyUsers(ScoreAll(stats)))
    {
      var allUsers := ScoreAll(stats);
      rows := [];
      var overall := Board("OVERALL", allUsers);
      rows := rows + overall;
      var companyUsers := CompanyUsers(allUsers);
      var company := Board("COMPANY", companyUsers);
      rows := rows + company;
    }
  }

  /**
   * A board holds min(100, n) rows ranked 1, 2, ... with scores that never
   * increase; it is empty exactly when there are no users.
   */
  lemma BoardSpec(kind: string, users: seq<ScoredUser>)
    ensures var b := Board(kind, users);
            |b| == Min(BoardSize, |users|)
            && (b == [] <==> users == [])
            && forall k :: 0 <= k < |b| ==> b[k].rank == k + 1 && b[k].kind == kind
    ensures var b := Board(kind, users);
            forall i, j :: 0 <= i < j < |b| ==> b[i].score >= b[j].score
  {
    ByScoreDescTotal();
    SortBySorted(users, ByScoreDesc);
  }

  /**
   * Every user either has a row on the board, or scores no more than any
   * user on it: nobody is left out in favour of a lower score.
   */
  lemma BoardIsTop(kind: string, users: seq<ScoredUser>, i: nat)
    requires i < |users|
    ensures var b := Board(kind, users);
            (exists k :: 0 <= k < |b| && b[k].userId == users[i].id && b[k].score == users[i].score)
            || (forall k :: 0 <= k < |b| ==> b[k].score >= users[i].score)
  {
    var sorted := SortBy(users, ByScoreDesc);
    var b := Board(kind, users);
    ByScoreDescTotal();
    SortBySorted(users, ByScoreDesc);
    assert users[i] in multiset(sorted);
    var j :| 0 <= j < |sorted| && sorted[j] == users[i];
    if j < |b| {
      assert b[j].userId == users[i].id && b[j].score == users[i].score;
    } else {
      forall k | 0 <= k < |b|
        ensures b[k].score >= users[i].score
      {
        assert ByScoreDesc(sorted[k], sorted[j]);
      }
    }
  }

  /** Every row of the company board belongs to a user with a company e-mail. */
  lemma CompanyBoardOnlyCompany(users: seq<ScoredUser>)
    ensures var b := Board("COMPANY", CompanyUsers(users));
            forall k :: 0 <= k < |b| ==> exists u :: u in users && IsCompany(u) && u.id == b[k].userId
  {
    var c := CompanyUsers(users);
    var sorted := SortBy(c, ByScoreDesc);
    var b := Board("COMPANY", c);
    forall k | 0 <= k < |b|
      ensures exists u :: u in users && IsCompany(u) && u.id == b[k].userId
    {
      assert sorted[k] in multiset(c);
      assert sorted[k] in c;
    }
  }
}
