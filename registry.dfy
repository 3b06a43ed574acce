/** The broadcaster's connection registry: one response per user (the last
    registration wins) and a list of responses per group, both mutated in place
    (broadcaster-api/src/connections.js). */
module Registry {
  import opened Wrappers

  type UserId = string
  type GroupId = string

  /** An open response stream. The source compares responses by identity
      (`indexOf`, `===`), so a handle stands for one. */
  type Conn = int

  /** The registry's contents. `users` and `groups` are the two JavaScript Maps;
      `order` lists the keys of `users` in the Map's iteration (insertion) order,
      which is the order `users.values()` yields them in. */
  datatype State = State(users: map<UserId, Conn>, order: seq<UserId>, groups: map<GroupId, seq<Conn>>)

  const Empty: State := State(map[], [], map[])

  /** The pruning invariant: no group key maps to an empty list. */
  predicate NoEmptyGroup(groups: map<GroupId, seq<Conn>>) {
    forall g :: g in groups ==> groups[g] != []
  }

  predicate Distinct<T(==)>(s: seq<T>) {
    forall i, j :: 0 <= i < j < |s| ==> s[i] != s[j]
  }

  /** `order` lists every key of `users` exactly once. */
  predicate OrderMatches(users: map<UserId, Conn>, order: seq<UserId>) {
    Distinct(order) && (forall u :: u in users ==> u in order) && (forall u :: u in order ==> u in users)
  }

  predicate WellFormed(st: State) {
    NoEmptyGroup(st.groups) && OrderMatches(st.users, st.order)
  }

  // ---------------------------------------------------------------------------
  // Lists of responses: indexOf and splice
  // ---------------------------------------------------------------------------

  /** `Array.prototype.indexOf`: the first position holding `r`, or -1. */
  function IndexOf(s: seq<Conn>, r: Conn): (k: int)
    ensures -1 <= k < |s|
    ensures k == -1 <==> r !in s
    ensures 0 <= k ==> s[k] == r && r !in s[..k]
  {
    if s == [] then -1
    else if s[0] == r then 0
    else
      var k := IndexOf(s[1..], r);
      if k == -1 then -1
      else
        assert s[..k + 1] == [s[0]] + s[1..][..k];
        k + 1
  }

  /** `indexOf` followed by `splice(index, 1)` when the response was found. */
  function RemoveFirst(s: seq<Conn>, r: Conn): seq<Conn> {
    var k := IndexOf(s, r);
    if k > -1 then s[..k] + s[k + 1..] else s
  }

  /** Only one occurrence goes, the rest keep their order, nothing else is lost. */
  lemma RemoveFirstShape(s: seq<Conn>, r: Conn)
    ensures r in s ==> exists k :: 0 <= k < |s| && s[k] == r && r !in s[..k] && RemoveFirst(s, r) == s[..k] + s[k + 1..]
    ensures r !in s ==> RemoveFirst(s, r) == s
    ensures multiset(RemoveFirst(s, r)) == multiset(s) - multiset{r}
  {
    var k := IndexOf(s, r);
    if k > -1 {
      assert s == s[..k] + [r] + s[k + 1..];
      assert multiset(s) == multiset(s[..k]) + multiset{r} + multiset(s[k + 1..]);
    }
  }

  /** Removing once more finds nothing when `r` occurred at most once. */
  lemma RemoveFirstIdempotent(s: seq<Conn>, r: Conn)
    requires multiset(s)[r] <= 1
    ensures RemoveFirst(RemoveFirst(s, r), r) == RemoveFirst(s, r)
  {
    RemoveFirstShape(s, r);
    var t := RemoveFirst(s, r);
    assert multiset(t)[r] == 0;
    assert r !in t;
  }

  /** With two or more occurrences a second removal does change the list: it takes
      the next copy. With `RemoveFirstIdempotent` this makes idempotence depend on
      duplicates exactly. */
  lemma RemoveFirstNotIdempotentWithDuplicates(s: seq<Conn>, r: Conn)
    requires multiset(s)[r] >= 2
    ensures RemoveFirst(RemoveFirst(s, r), r) != RemoveFirst(s, r)
  {
    RemoveFirstShape(s, r);
    var t := RemoveFirst(s, r);
    assert multiset(t)[r] >= 1;
    RemoveFirstShape(t, r);
    assert multiset(RemoveFirst(t, r))[r] == multiset(t)[r] - 1;
  }

  // ---------------------------------------------------------------------------
  // Map key order (JavaScript Maps iterate in insertion order)
  // ---------------------------------------------------------------------------

  /** The key order after `Map.delete(u)`. */
  function Without(order: seq<UserId>, u: UserId): (o: seq<UserId>)
    ensures forall v :: v in o <==> v in order && v != u
    ensures Distinct(order) ==> Distinct(o)
  {
    if order == [] then []
    else
      var rest := Without(order[1..], u);
      if order[0] == u then rest
      else
        assert Distinct(order) ==> order[0] !in rest by {
          if Distinct(order) {
            assert forall v :: v in order[1..] ==> v != order[0];
          }
        }
        [order[0]] + rest
  }

  /** `users.values()` in iteration order. */
  function ValuesInOrder(users: map<UserId, Conn>, order: seq<UserId>): seq<Conn> {
    if order == [] then []
    else (if order[0] in users then [users[order[0]]] else []) + ValuesInOrder(users, order[1..])
  }

  lemma {:induction false} ValuesInOrderAt(users: map<UserId, Conn>, order: seq<UserId>)
    requires forall u :: u in order ==> u in users
    ensures |ValuesInOrder(users, order)| == |order|
    ensures forall i :: 0 <= i < |order| ==> ValuesInOrder(users, order)[i] == users[order[i]]
  {
    if order != [] {
      ValuesInOrderAt(users, order[1..]);
    }
  }

  lemma {:induction false} DistinctCard(s: seq<UserId>)
    requires Distinct(s)
    ensures |set x | x in s| == |s|
  {
    if s != [] {
      DistinctCard(s[1..]);
      assert (set x | x in s) == {s[0]} + (set x | x in s[1..]);
      assert s[0] !in (set x | x in s[1..]);
    }
  }

  // ---------------------------------------------------------------------------
  // Registry operations on values
  // ---------------------------------------------------------------------------

  /** `getUserConnection`: `users.get(u)`. */
  function LookupUser(st: State, u: UserId): Option<Conn> {
    if u in st.users then Some(st.users[u]) else None
  }

  /** `getGroupConnections`: the group's list, or `[]` for an unknown group. */
  function GroupConns(st: State, g: GroupId): seq<Conn> {
    if g in st.groups then st.groups[g] else []
  }

  /** The connections a broadcast reaches: `Array.from(users.values())`. */
  function AllUserConns(st: State): seq<Conn> {
    ValuesInOrder(st.users, st.order)
  }

  /** `addUserConnection`: `users.set(u, r)`. */
  function AddUser(st: State, u: UserId, r: Conn): (st': State)
    ensures LookupUser(st', u) == Some(r)
    ensures forall v :: v != u ==> LookupUser(st', v) == LookupUser(st, v)
    ensures st'.groups == st.groups
    ensures WellFormed(st) ==> WellFormed(st')
  {
    State(st.users[u := r], if u in st.users then st.order else st.order + [u], st.groups)
  }

  /** `addUserToGroup`: create the list if absent, then push `r`. */
  function AddToGroup(st: State, g: GroupId, r: Conn): (st': State)
    ensures g in st'.groups && st'.groups[g] == GroupConns(st, g) + [r]
    ensures forall h :: h != g ==> GroupConns(st', h) == GroupConns(st, h) && (h in st'.groups <==> h in st.groups)
    ensures st'.users == st.users && st'.order == st.order
    ensures WellFormed(st) ==> WellFormed(st')
  {
    State(st.users, st.order, st.groups[g := GroupConns(st, g) + [r]])
  }

  /** `removeUserConnection`: `users.delete(u)`. */
  function RemoveUser(st: State, u: UserId): (st': State)
    ensures LookupUser(st', u) == None
    ensures forall v :: v != u ==> LookupUser(st', v) == LookupUser(st, v)
    ensures st'.groups == st.groups
    ensures u !in st.users ==> st' == st
    ensures WellFormed(st) ==> WellFormed(st')
  {
    if u in st.users then State(st.users - {u}, Without(st.order, u), st.groups) else st
  }

  /** The groups map after `removeUserFromGroup(g, r)`. */
  function DropFromGroup(groups: map<GroupId, seq<Conn>>, g: GroupId, r: Conn): (m: map<GroupId, seq<Conn>>)
    ensures forall h :: h != g ==> (h in m <==> h in groups) && (h in m ==> m[h] == groups[h])
    ensures g in m <==> g in groups && RemoveFirst(groups[g], r) != []
    ensures g in m ==> m[g] == RemoveFirst(groups[g], r)
  {
    if g !in groups then groups
    else
      var rest := RemoveFirst(groups[g], r);
      if |rest| == 0 then groups - {g} else groups[g := rest]
  }

  /** `removeUserFromGroup`: splice out the first `r`, and delete the key when the list is left empty. */
  function RemoveFromGroup(st: State, g: GroupId, r: Conn): (st': State)
    ensures GroupConns(st', g) == RemoveFirst(GroupConns(st, g), r)
    ensures g in st'.groups <==> RemoveFirst(GroupConns(st, g), r) != []
    ensures forall h :: h != g ==> GroupConns(st', h) == GroupConns(st, h) && (h in st'.groups <==> h in st.groups)
    ensures st'.users == st.users && st'.order == st.order
    ensures NoEmptyGroup(st.groups) && (g !in st.groups || r !in st.groups[g]) ==> st' == st
    ensures WellFormed(st) ==> WellFormed(st')
  {
    var st' := State(st.users, st.order, DropFromGroup(st.groups, g, r));
    assert NoEmptyGroup(st.groups) && (g !in st.groups || r !in st.groups[g]) ==> st'.groups == st.groups;
    st'
  }

  /** The groups map once `r` has been removed from every group. */
  function CleanupGroups(groups: map<GroupId, seq<Conn>>, r: Conn): map<GroupId, seq<Conn>> {
    map g | g in groups && RemoveFirst(groups[g], r) != [] :: RemoveFirst(groups[g], r)
  }

  /** `cleanupConnection(u, r)`: drop `u`'s entry (whatever response it now holds)
      and one occurrence of `r` from every group. */
  function Cleanup(st: State, u: UserId, r: Conn): (st': State)
    ensures LookupUser(st', u) == None
    ensures forall v :: v != u ==> LookupUser(st', v) == LookupUser(st, v)
    ensures forall g :: GroupConns(st', g) == RemoveFirst(GroupConns(st, g), r)
    ensures forall g :: g in st'.groups <==> g in st.groups && RemoveFirst(st.groups[g], r) != []
    ensures WellFormed(st) ==> WellFormed(st')
  {
    var st1 := RemoveUser(st, u);
    State(st1.users, st1.order, CleanupGroups(st1.groups, r))
  }


  // ---------------------------------------------------------------------------
  // Properties relating several operations
  // ---------------------------------------------------------------------------

  /** A broadcast reaches each registered user's connection once, in Map order,
      and nothing registered only under a group. */
  lemma BroadcastTargets(st: State)
    requires WellFormed(st)
    ensures |AllUserConns(st)| == |st.order| == |st.users|
    ensures forall i :: 0 <= i < |st.order| ==> AllUserConns(st)[i] == st.users[st.order[i]]
    ensures forall c :: c in AllUserConns(st) <==> c in st.users.Values
  {
    ValuesInOrderAt(st.users, st.order);
    DistinctCard(st.order);
    assert st.users.Keys == set x | x in st.order;
    var vs := AllUserConns(st);
    forall c | c in st.users.Values ensures c in vs {
      var u :| u in st.users && st.users[u] == c;
      var i :| 0 <= i < |st.order| && st.order[i] == u;
      assert vs[i] == c;
    }
  }

  /** A second cleanup with no registration in between changes nothing, as long as
      `r` occurred at most once in every group list. */
  lemma CleanupIdempotent(st: State, u: UserId, r: Conn)
    requires forall g :: g in st.groups ==> multiset(st.groups[g])[r] <= 1
    ensures Cleanup(Cleanup(st, u, r), u, r) == Cleanup(st, u, r)
  {
    var once := Cleanup(st, u, r);
    assert RemoveUser(once, u) == once;
    CleanupGroupsIdempotent(st.groups, r);
  }

  lemma CleanupGroupsIdempotent(groups: map<GroupId, seq<Conn>>, r: Conn)
    requires forall g :: g in groups ==> multiset(groups[g])[r] <= 1
    ensures CleanupGroups(CleanupGroups(groups, r), r) == CleanupGroups(groups, r)
  {
    var m := CleanupGroups(groups, r);
    forall g | g in m ensures RemoveFirst(m[g], r) == m[g] {
      RemoveFirstIdempotent(groups[g], r);
    }
  }

  /** With a response held twice in some group, a second cleanup removes another
      copy, so the converse of `CleanupIdempotent` holds as well. */
  lemma CleanupNotIdempotentWithDuplicates(st: State, u: UserId, r: Conn, g: GroupId)
    requires g in st.groups && multiset(st.groups[g])[r] >= 2
    ensures Cleanup(Cleanup(st, u, r), u, r) != Cleanup(st, u, r)
  {
    var once := Cleanup(st, u, r);
    var t := RemoveFirst(st.groups[g], r);
    RemoveFirstShape(st.groups[g], r);
    assert r in t by { assert multiset(t)[r] >= 1; }
    assert GroupConns(once, g) == t;
    RemoveFirstNotIdempotentWithDuplicates(st.groups[g], r);
    assert GroupConns(Cleanup(once, u, r), g) != GroupConns(once, g);
  }

  /** Cleanup is keyed on the user id alone: a stale response's cleanup also
      removes a newer response registered under the same id afterwards. */
  lemma StaleCleanupDropsNewerRegistration(st: State, u: UserId, stale: Conn, newer: Conn)
    requires stale != newer
    ensures var st1 := AddUser(AddUser(st, u, stale), u, newer);
      LookupUser(st1, u) == Some(newer) && LookupUser(Cleanup(st1, u, stale), u) == None
  {
  }

  /** Removing a user's entry leaves that response in every group it was added to. */
  lemma UserRemovalKeepsGroups(st: State, u: UserId, g: GroupId, r: Conn)
    ensures var st1 := RemoveUser(AddToGroup(AddUser(st, u, r), g, r), u);
      LookupUser(st1, u) == None && r in GroupConns(st1, g)
  {
  }

  // ---------------------------------------------------------------------------
  // The registry object
  // ---------------------------------------------------------------------------

  /** The stateful manager (`ConnectionManager`); its maps are updated in place. */
  class ConnectionManager {
    var users: map<UserId, Conn>
    var order: seq<UserId>
    var groups: map<GroupId, seq<Conn>>

    function Snapshot(): State
      reads this
    {
      State(users, order, groups)
    }

    ghost predicate Valid()
      reads this
    {
      WellFormed(Snapshot())
    }

    constructor ()
      ensures Valid() && Snapshot() == Empty
    {
      users, order, groups := map[], [], map[];
    }

    method AddUserConnection(u: UserId, r: Conn)
      requires Valid()
      modifies this
      ensures Valid() && Snapshot() == AddUser(old(Snapshot()), u, r)
    {
      if u !in users {
        order := order + [u];
      }
      users := users[u := r];
    }

    method AddUserToGroup(g: GroupId, r: Conn)
      requires Valid()
      modifies this
      ensures Valid() && Snapshot() == AddToGroup(old(Snapshot()), g, r)
    {
      if g !in groups {
        groups := groups[g := []];
      }
      groups := groups[g := groups[g] + [r]];
    }

    method RemoveUserConnection(u: UserId)
      requires Valid()
      modifies this
      ensures Valid() && Snapshot() == RemoveUser(old(Snapshot()), u)
    {
      if u in users {
        users := users - {u};
        order := Without(order, u);
      }
    }

    method RemoveUserFromGroup(g: GroupId, r: Conn)
      modifies this
      ensures Snapshot() == RemoveFromGroup(old(Snapshot()), g, r)
      ensures old(Valid()) ==> Valid()
    {
      ghost var before := groups;
      if g in groups {
        var connections := groups[g];
        var index := IndexOf(connections, r);
        if index > -1 {
          connections := connections[..index] + connections[index + 1..];
          groups := groups[g := connections];
        }
        assert connections == RemoveFirst(before[g], r);
        if |connections| == 0 {
          groups := groups - {g};
        }
      }
      assert groups == DropFromGroup(before, g, r);
    }

    method GetUserConnection(u: UserId) returns (c: Option<Conn>)
      ensures u in users ==> c == Some(users[u])
      ensures u !in users ==> c == None
    {
      c := if u in users then Some(users[u]) else None;
    }

    method GetGroupConnections(g: GroupId) returns (cs: seq<Conn>)
      ensures g in groups ==> cs == groups[g]
      ensures g !in groups ==> cs == []
    {
      cs := if g in groups then groups[g] else [];
    }

    method GetConnectionCount() returns (userCount: nat, groupCount: nat)
      ensures userCount == |users| && groupCount == |groups|
    {
      userCount, groupCount := |users|, |groups|;
    }

    method CleanupConnection(u: UserId, r: Conn)
      requires Valid()
      modifies this
      ensures Valid() && Snapshot() == Cleanup(old(Snapshot()), u, r)
    {
      RemoveUserConnection(u);
      ghost var start := groups;
      var todo := groups.Keys;
      assert CleanedOn(start, r, start.Keys - todo) == start;
      while todo != {}
        invariant todo <= start.Keys
        invariant users == old(RemoveUser(Snapshot(), u)).users && order == old(RemoveUser(Snapshot(), u)).order
        invariant groups == CleanedOn(start, r, start.Keys - todo)
        invariant Valid()
        decreases todo
      {
        var g :| g in todo;
        CleanStep(start, r, start.Keys - todo, g);
        RemoveUserFromGroup(g, r);
        assert (start.Keys - todo) + {g} == start.Keys - (todo - {g});
        todo := todo - {g};
      }
      assert groups == CleanupGroups(start, r);
    }
  }

  /** The groups map part-way through the cleanup loop: the groups in `done`
      have had `r` removed (and are pruned when left empty), the rest are untouched. */
  ghost function CleanedOn(groups: map<GroupId, seq<Conn>>, r: Conn, done: set<GroupId>): map<GroupId, seq<Conn>> {
    map g | g in groups && (g in done ==> RemoveFirst(groups[g], r) != []) ::
      if g in done then RemoveFirst(groups[g], r) else groups[g]
  }

  lemma CleanStep(groups: map<GroupId, seq<Conn>>, r: Conn, done: set<GroupId>, g: GroupId)
    requires g in groups && g !in done
    ensures DropFromGroup(CleanedOn(groups, r, done), g, r) == CleanedOn(groups, r, done + {g})
  {
    var m := CleanedOn(groups, r, done);
    assert g in m && m[g] == groups[g];
    var lhs := DropFromGroup(m, g, r);
    var rhs := CleanedOn(groups, r, done + {g});
    assert lhs.Keys == rhs.Keys;
    forall h | h in lhs
      ensures lhs[h] == rhs[h]
    {
    }
  }
}
