/**
 * src/screens/write/UserSelectModal.tsx: the "tag people" sheet of the review
 * editor. It lists the user's followers and followings once each, filters
 * them by a search term, and lets up to ten of them be selected. The two
 * follow lists arrive as parameters (None for a request that was not ok).
 */
module UserSelect {
  import opened Wrappers
  import Text

  /** User (lines 8-13). */
  datatype User = User(id: int, nickname: string, accountId: string, profileImage: Option<string>)

  /** The most users that can be tagged (line 72). */
  const MaxSelected: nat := 10

  /** The list holds a user with this id. */
  predicate HasId(users: seq<User>, id: int)
  {
    exists j :: 0 <= j < |users| && users[j].id == id
  }

  predicate UniqueIds(users: seq<User>)
  {
    forall i, j :: 0 <= i < j < |users| ==> users[i].id != users[j].id
  }

  /** The index of the first user with this id, or |users| when there is none. */
  function IndexOfId(users: seq<User>, id: int): (r: nat)
    ensures r <= |users|
    ensures r < |users| ==> users[r].id == id
    ensures forall j :: 0 <= j < r ==> users[j].id != id
  {
    if users == [] then 0
    else if users[0].id == id then 0
    else 1 + IndexOfId(users[1..], id)
  }

  /** `map.set(u.id, u)` on the entries of an insertion-ordered Map: a known id keeps its place and takes the new user. */
  function Put(entries: seq<User>, u: User): seq<User>
  {
    var i := IndexOfId(entries, u.id);
    if i < |entries| then entries[i := u] else entries + [u]
  }

  /** `Array.from(new Map(combined.map(u => [u.id, u])).values())` (line 58). */
  function DedupeById(users: seq<User>): seq<User>
  {
    if users == [] then [] else Put(DedupeById(users[..|users| - 1]), users[|users| - 1])
  }

  /** u is a user of the list that no later user shares an id with. */
  predicate LastWithId(users: seq<User>, u: User)
  {
    exists k :: 0 <= k < |users| && users[k] == u && forall k' :: k < k' < |users| ==> users[k'].id != u.id
  }

  /** One put: ids stay unique, the new id is present, the earlier ids keep their places. */
  lemma PutSpec(entries: seq<User>, u: User)
    requires UniqueIds(entries)
    ensures UniqueIds(Put(entries, u))
    ensures |entries| <= |Put(entries, u)| <= |entries| + 1
    ensures forall j :: 0 <= j < |entries| ==> Put(entries, u)[j].id == entries[j].id
    ensures forall j :: 0 <= j < |Put(entries, u)| ==> Put(entries, u)[j] == u || (Put(entries, u)[j] == entries[j] && entries[j].id != u.id)
    ensures HasId(Put(entries, u), u.id)
  {
    var i := IndexOfId(entries, u.id);
    var r := Put(entries, u);
    if i < |entries| {
      assert r[i] == u;
    } else {
      assert r[|entries|] == u;
    }
  }

  /** The deduplicated list has each id once and is no longer than the input. */
  lemma {:induction false} DedupeUnique(users: seq<User>)
    ensures UniqueIds(DedupeById(users)) && |DedupeById(users)| <= |users|
  {
    if users != [] {
      var n := |users| - 1;
      DedupeUnique(users[..n]);
      PutSpec(DedupeById(users[..n]), users[n]);
    }
  }

  /** Every id of the input is kept. */
  lemma {:induction false} DedupeKeepsIds(users: seq<User>)
    ensures forall k :: 0 <= k < |users| ==> HasId(DedupeById(users), users[k].id)
  {
    if users != [] {
      var n := |users| - 1;
      var init := users[..n];
      var before := DedupeById(init);
      var after := DedupeById(users);
      DedupeKeepsIds(init);
      DedupeUnique(init);
      PutSpec(before, users[n]);
      forall k | 0 <= k < n
        ensures HasId(after, users[k].id)
      {
        assert init[k] == users[k];
        var j :| 0 <= j < |before| && before[j].id == users[k].id;
        assert after[j].id == users[k].id;
      }
    }
  }

  /** Each user kept is the last input user with its id. */
  lemma {:induction false} DedupeKeepsLast(users: seq<User>)
    ensures forall j :: 0 <= j < |DedupeById(users)| ==> LastWithId(users, DedupeById(users)[j])
  {
    if users != [] {
      var n := |users| - 1;
      var init := users[..n];
      var u := users[n];
      var before := DedupeById(init);
      var after := DedupeById(users);
      DedupeKeepsLast(init);
      DedupeUnique(init);
      PutSpec(before, u);
      assert users == init + [u];
      forall j | 0 <= j < |after|
        ensures LastWithId(users, after[j])
      {
        if after[j] == u {
          assert users[n] == after[j];
        } else {
          assert after[j] == before[j] && before[j].id != u.id;
          LastWithIdExtend(init, u, before[j]);
        }
      }
    }
  }

  /** Appending a user with another id keeps v the last with its id. */
  lemma LastWithIdExtend(init: seq<User>, u: User, v: User)
    requires LastWithId(init, v) && v.id != u.id
    ensures LastWithId(init + [u], v)
  {
    var users := init + [u];
    var k :| 0 <= k < |init| && init[k] == v && forall k' :: k < k' < |init| ==> init[k'].id != v.id;
    assert users[k] == v;
    assert forall k' :: k < k' < |users| ==> users[k'].id != v.id;
  }

  /**
   * Ids keep the order in which they first appeared: the list for a prefix
   * of the input is, id for id, a prefix of the list for the whole.
   */
  lemma {:induction false} DedupeKeepsOrder(users: seq<User>, m: nat)
    requires m <= |users|
    ensures |DedupeById(users[..m])| <= |DedupeById(users)|
    ensures forall j :: 0 <= j < |DedupeById(users[..m])| ==> DedupeById(users)[j].id == DedupeById(users[..m])[j].id
  {
    if m == |users| {
      assert users[..m] == users;
    } else {
      var n := |users| - 1;
      var init := users[..n];
      assert init[..m] == users[..m];
      DedupeKeepsOrder(init, m);
      DedupeUnique(init);
      PutSpec(DedupeById(init), users[n]);
    }
  }

  /** fetchConnections (lines 37-66): followers then followings, each only when its request was ok, once per id. */
  function Connections(followers: Option<seq<User>>, following: Option<seq<User>>): seq<User>
  {
    var combined := (if followers.Some? then followers.value else []) + (if following.Some? then following.value else []);
    DedupeById(combined)
  }

  /** Everyone who follows or is followed appears, once. */
  lemma ConnectionsSpec(followers: seq<User>, following: seq<User>)
    ensures UniqueIds(Connections(Some(followers), Some(following)))
    ensures forall k :: 0 <= k < |followers| ==> HasId(Connections(Some(followers), Some(following)), followers[k].id)
    ensures forall k :: 0 <= k < |following| ==> HasId(Connections(Some(followers), Some(following)), following[k].id)
    ensures Connections(None, None) == []
  {
    var combined := followers + following;
    DedupeUnique(combined);
    DedupeKeepsIds(combined);
    assert forall k :: 0 <= k < |followers| ==> combined[k] == followers[k];
    assert forall k :: 0 <= k < |following| ==> combined[|followers| + k] == following[k];
  }

  /** `selected.filter(u => u.id !== id)`. */
  function WithoutId(selected: seq<User>, id: int): (r: seq<User>)
    ensures |r| <= |selected|
    ensures !HasId(r, id)
    ensures forall j :: 0 <= j < |r| ==> r[j] in selected
    ensures forall j :: 0 <= j < |selected| && selected[j].id != id ==> selected[j] in r
  {
    if selected == [] then []
    else
      var rest := WithoutId(selected[1..], id);
      assert forall j :: 0 <= j < |selected[1..]| ==> selected[1..][j] == selected[j + 1];
      if selected[0].id == id then rest else [selected[0]] + rest
  }

  /** handleToggle (lines 68-75). */
  function Toggle(selected: seq<User>, user: User): seq<User>
  {
    if HasId(selected, user.id) then WithoutId(selected, user.id)
    else if |selected| >= MaxSelected then selected
    else selected + [user]
  }

  /**
   * A selected user is removed (every entry with its id); an unselected one
   * is added last while fewer than ten are selected and ignored otherwise;
   * so a selection of at most ten stays at most ten.
   */
  lemma ToggleSpec(selected: seq<User>, user: User)
    ensures HasId(selected, user.id) ==> !HasId(Toggle(selected, user), user.id) && |Toggle(selected, user)| < |selected|
    ensures !HasId(selected, user.id) && |selected| < MaxSelected ==> Toggle(selected, user) == selected + [user]
    ensures !HasId(selected, user.id) && |selected| >= MaxSelected ==> Toggle(selected, user) == selected
    ensures |selected| <= MaxSelected ==> |Toggle(selected, user)| <= MaxSelected
  {
    if HasId(selected, user.id) {
      var j :| 0 <= j < |selected| && selected[j].id == user.id;
      WithoutIdShorter(selected, user.id, j);
    }
  }

  lemma {:induction false} WithoutIdShorter(selected: seq<User>, id: int, j: nat)
    requires j < |selected| && selected[j].id == id
    ensures |WithoutId(selected, id)| < |selected|
  {
    if j > 0 {
      WithoutIdShorter(selected[1..], id, j - 1);
    }
  }

  /** WithoutId of a list that lacks the id changes nothing. */
  lemma {:induction false} WithoutIdAbsent(selected: seq<User>, id: int)
    requires !HasId(selected, id)
    ensures WithoutId(selected, id) == selected
  {
    if selected != [] {
      WithoutIdAbsent(selected[1..], id);
    }
  }

  /** Toggling a user on and off again restores the selection. */
  lemma ToggleTwice(selected: seq<User>, user: User)
    requires !HasId(selected, user.id) && |selected| < MaxSelected
    ensures Toggle(Toggle(selected, user), user) == selected
  {
    var s := selected + [user];
    assert s[|selected|].id == user.id;
    WithoutIdAbsent(selected, user.id);
    WithoutIdAppend(selected, user);
  }

  lemma {:induction false} WithoutIdAppend(selected: seq<User>, user: User)
    ensures WithoutId(selected + [user], user.id) == WithoutId(selected, user.id)
  {
    if selected == [] {
      assert [] + [user] == [user];
      assert [user][1..] == [];
    } else {
      assert (selected + [user])[1..] == selected[1..] + [user];
      WithoutIdAppend(selected[1..], user);
    }
  }

  /** The search of lines 82-85: the term, lower-cased, occurs in the nickname or the account id, lower-cased. */
  predicate Matches(user: User, term: string)
  {
    Text.Contains(Text.Lower(user.nickname), Text.Lower(term))
    || Text.Contains(Text.Lower(user.accountId), Text.Lower(term))
  }

  /** filteredConnections (lines 82-85). */
  function Filtered(connections: seq<User>, term: string): (r: seq<User>)
    ensures |r| <= |connections|
    ensures forall j :: 0 <= j < |r| ==> r[j] in connections && Matches(r[j], term)
    ensures forall j :: 0 <= j < |connections| && Matches(connections[j], term) ==> connections[j] in r
  {
    if connections == [] then []
    else
      var rest := Filtered(connections[1..], term);
      assert forall j :: 0 <= j < |connections[1..]| ==> connections[1..][j] == connections[j + 1];
      if Matches(connections[0], term) then [connections[0]] + rest else rest
  }

  /** The empty term matches everyone, so the whole list is shown. */
  lemma {:induction false} EmptyTermKeepsAll(connections: seq<User>)
    ensures Filtered(connections, "") == connections
  {
    if connections != [] {
      assert Text.OccursAt(Text.Lower(connections[0].nickname), Text.Lower(""), 0);
      EmptyTermKeepsAll(connections[1..]);
    }
  }

  /** The search ignores ASCII case: a term and its upper-case form find the same users. */
  lemma MatchIgnoresCase(user: User, term: string)
    ensures Matches(user, Text.Upper(term)) <==> Matches(user, term)
  {
    var a := Text.Lower(Text.Upper(term));
    var b := Text.Lower(term);
    assert forall i :: 0 <= i < |a| ==> a[i] == b[i];
    assert a == b;
  }
}
