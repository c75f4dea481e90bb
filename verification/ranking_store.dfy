/**
 * The users_ranking table (server/db/schema.ts:167-177), held as each user's
 * list of rows. The scripts that rebuild or adjust rankings work on it.
 */
module RankingStore {
  import DC = DistributeContent

  /** The unique (user_id, shop_id) constraint, for one user's rows. */
  predicate UniqueShops(rows: seq<DC.Ranking>)
  {
    forall i, j :: 0 <= i < j < |rows| ==> rows[i].shopId != rows[j].shopId
  }

  /** A non-empty set of user ids has a member. */
  lemma SomeUser(users: set<int>)
    requires users != {}
    ensures exists u :: u in users
  {
    if forall u :: u !in users {
      assert false;
    }
  }

  /** Any one of a non-empty set of user ids. */
  method PickUser(users: set<int>) returns (u: int)
    requires users != {}
    ensures u in users
  {
    SomeUser(users);
    u :| u in users;
  }

  class RankingTable {
    var byUser: map<int, seq<DC.Ranking>>

    constructor(byUser: map<int, seq<DC.Ranking>>)
      ensures this.byUser == byUser
    {
      this.byUser := byUser;
    }
  }
}
