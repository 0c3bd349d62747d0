/**
Realm membership: a realm lists its users, and a user names its realm. The membership operations change the two sides
one after the other.
*/
module Membership {
  import opened Basics
  import opened ObjectStore
  import opened Access
  import opened Names

  function WithUsers(s: State, realmId: Id, ids: seq<Id>): State
    requires IsRealm(s, realmId)
  {
    s[realmId := s[realmId].(resourceKind := s[realmId].resourceKind.(userObjIds := ids))]
  }

  /** The user record with another realm id. */
  function InRealm(rec: Record, realmId: Id): (r: Record)
    requires rec.PartyRec?
    ensures r.PartyRec? && r.realmId == realmId && r.partyKind == rec.partyKind && r.name == rec.name
  {
    PartyRec(rec.name, realmId, rec.isActive, rec.acl, rec.partyKind)
  }

  /** realm.addUserId: only for a user without a realm, and only if no user of the realm has the name. */
  function AddUserId(s: State, realmId: Id, u: Id): Outcome
    requires IsRealm(s, realmId)
  {
    var ids := s[realmId].resourceKind.userObjIds;
    if !IsUser(s, u) || s[u].realmId != NO_ID then Outcome(s, false)
    else if FindByName(s, ids, s[u].name, UserMember) != NotNamed then Outcome(s, false)
    else Outcome(WithUsers(s, realmId, ids + [u])[u := InRealm(s[u], realmId)], true)
  }

  /** realm.removeUserId */
  function RemoveUserId(s: State, realmId: Id, u: Id): Outcome
    requires IsRealm(s, realmId)
  {
    var ids := s[realmId].resourceKind.userObjIds;
    if !IsUser(s, u) || s[u].realmId != realmId then Outcome(s, false)
    else Outcome(WithUsers(s, realmId, RemoveFrom(u, ids))[u := InRealm(s[u], NO_ID)], true)
  }

  /** realm.addUser: for any user, whatever realm it is in. */
  function AddUser(s: State, realmId: Id, u: Id): Outcome
    requires IsRealm(s, realmId) && IsUser(s, u)
  {
    var ids := s[realmId].resourceKind.userObjIds;
    if FindByName(s, ids, s[u].name, UserMember) != NotNamed then Outcome(s, false)
    else Outcome(WithUsers(s, realmId, ids + [u])[u := InRealm(s[u], realmId)], true)
  }

  /** The record of a new user. */
  function NewUserRec(realmId: Id, login: string, name: string): Record {
    PartyRec(name, realmId, true, [], UserKind(login, []))
  }

  /** The end of dbCreateUser: the user is stored with its realm before the realm checks the name. */
  function CreateUser(s: State, realmId: Id, login: string, name: string, newId: Id): Outcome
    requires IsRealm(s, realmId) && newId !in s
  {
    AddUser(s[newId := NewUserRec(realmId, login, name)], realmId, newId)
  }

  /** The handler moveUserToRealm, once the caller is authorized. */
  function MoveUser(s: State, u: Id, destId: Id): Outcome {
    if !IsRealm(s, destId) || !IsUser(s, u) || !IsRealm(s, s[u].realmId) || s[u].realmId == destId then Outcome(s, false)
    else
      var o := RemoveUserId(s, s[u].realmId, u);
      if !o.ok || !IsRealm(o.state, destId) then o else AddUserId(o.state, destId, u)
  }

  // ----- What holds of the two sides -----

  predicate ListsUser(s: State, r: Id, u: Id) {
    IsRealm(s, r) && u in s[r].resourceKind.userObjIds
  }

  predicate BelongsTo(s: State, u: Id, r: Id) {
    IsUser(s, u) && r != NO_ID && s[u].realmId == r
  }

  /** A realm lists only its own users, each once, and no two of one name. */
  ghost predicate MembersOk(s: State) {
    && (forall r, u {:trigger ListsUser(s, r, u)} :: ListsUser(s, r, u) ==> BelongsTo(s, u, r))
    && (forall r {:trigger IsRealm(s, r)} :: IsRealm(s, r) ==> NoDup(s[r].resourceKind.userObjIds))
    && (forall r, u, v {:trigger ListsUser(s, r, u), ListsUser(s, r, v)} ::
          ListsUser(s, r, u) && ListsUser(s, r, v) && s[u].name == s[v].name ==> u == v)
    && NO_ID !in s
  }

  /** Every user that names a live realm is in its list. */
  ghost predicate NobodyForgotten(s: State) {
    forall r, u {:trigger BelongsTo(s, u, r)} :: BelongsTo(s, u, r) && IsRealm(s, r) ==> ListsUser(s, r, u)
  }

  /** No user is in the lists of two realms. */
  lemma OneRealmPerUser(s: State, u: Id, a: Id, b: Id)
    requires MembersOk(s) && ListsUser(s, a, u) && ListsUser(s, b, u)
    ensures a == b
  {
    assert BelongsTo(s, u, a) && BelongsTo(s, u, b);
  }

  /** The users and realms that exist, and the names of the users, are the same. */
  ghost predicate SamePeople(s: State, t: State) {
    && t.Keys == s.Keys
    && (forall x {:trigger IsRealm(t, x)} :: IsRealm(t, x) <==> IsRealm(s, x))
    && (forall x {:trigger IsUser(t, x)} :: IsUser(t, x) <==> IsUser(s, x))
    && (forall x {:trigger IsUser(t, x)} :: IsUser(t, x) ==> t[x].name == s[x].name)
  }

  /** The record without the realm that a party names and without the users that a realm lists. */
  function Unplaced(rec: Record): Record {
    match rec
    case PartyRec(n, _, a, acl, k) => PartyRec(n, NO_ID, a, acl, k)
    case ResourceRec(n, p, acl, RealmKind(_, groups, repos)) => ResourceRec(n, p, acl, RealmKind([], groups, repos))
    case _ => rec
  }

  /** Nothing but realm membership differs. */
  ghost predicate OnlyPlaces(s: State, t: State) {
    t.Keys == s.Keys && forall x {:trigger t[x]} :: x in s ==> Unplaced(t[x]) == Unplaced(s[x])
  }

  lemma OnlyPlacesTwice(s: State, t: State, u: State)
    requires OnlyPlaces(s, t) && OnlyPlaces(t, u)
    ensures OnlyPlaces(s, u)
  {
    forall x | x in s ensures Unplaced(u[x]) == Unplaced(s[x]) { assert Unplaced(t[x]) == Unplaced(s[x]); }
  }

  lemma PlaceOnly(s: State, r: Id, ids: seq<Id>, u: Id, realmId: Id)
    requires IsRealm(s, r) && IsUser(s, u)
    ensures var s1 := WithUsers(s, r, ids); IsUser(s1, u) && OnlyPlaces(s, s1[u := InRealm(s1[u], realmId)])
  {
  }

  /** `t` has the memberships of `s`, and that of `u` in `r` as well. */
  ghost predicate Joined(s: State, t: State, u: Id, r: Id) {
    && (forall x, y {:trigger ListsUser(t, x, y)} :: ListsUser(t, x, y) <==> ListsUser(s, x, y) || (x == r && y == u))
    && (forall x, y {:trigger BelongsTo(t, y, x)} :: BelongsTo(t, y, x) <==> BelongsTo(s, y, x) || (x == r && y == u))
  }

  /** `t` has the memberships of `s` except that of `u` in `r`. */
  ghost predicate Left(s: State, t: State, u: Id, r: Id) {
    && (forall x, y {:trigger ListsUser(t, x, y)} :: ListsUser(t, x, y) <==> ListsUser(s, x, y) && !(x == r && y == u))
    && (forall x, y {:trigger BelongsTo(t, y, x)} :: BelongsTo(t, y, x) <==> BelongsTo(s, y, x) && !(x == r && y == u))
  }

  /** The user's name is free in the realm. */
  ghost predicate NameFree(s: State, r: Id, name: string)
    requires IsRealm(s, r)
  {
    !Taken(s, s[r].resourceKind.userObjIds, UserMember, name)
  }

  lemma UsersLive(s: State, r: Id)
    requires MembersOk(s) && IsRealm(s, r)
    ensures MembersLive(s, s[r].resourceKind.userObjIds, UserMember)
  {
    forall u | u in s[r].resourceKind.userObjIds ensures IsUser(s, u) { assert ListsUser(s, r, u) && BelongsTo(s, u, r); }
  }

  // ----- addUserId -----

  lemma AddUserIdMeans(s: State, r: Id, u: Id)
    requires MembersOk(s) && IsRealm(s, r)
    ensures var o := AddUserId(s, r, u);
      && (o.ok <==> IsUser(s, u) && s[u].realmId == NO_ID && NameFree(s, r, s[u].name))
      && (!o.ok ==> o.state == s)
      && (o.ok ==> Joined(s, o.state, u, r) && SamePeople(s, o.state))
      && MembersOk(o.state) && OnlyPlaces(s, o.state)
  {
    UsersLive(s, r);
    if IsUser(s, u) { PlaceOnly(s, r, s[r].resourceKind.userObjIds + [u], u, r); }
    if IsUser(s, u) {
      FindByNameMeans(s, s[r].resourceKind.userObjIds, s[u].name, UserMember);
      if AddUserId(s, r, u).ok {
        AddUserIdJoins(s, r, u);
        var listed, belongs := ListsUser(s, r, u), BelongsTo(s, u, r);
        JoinedOnce(s, AddUserId(s, r, u).state, u, r);
        JoinedOk(s, AddUserId(s, r, u).state, u, r);
      }
    }
  }

  lemma AddUserIdJoins(s: State, r: Id, u: Id)
    requires IsRealm(s, r) && NO_ID !in s && AddUserId(s, r, u).ok
    ensures var t := AddUserId(s, r, u).state;
      && IsUser(s, u) && Joined(s, t, u, r) && SamePeople(s, t) && OthersKept(s, t, r)
      && IsRealm(t, r) && t[r].resourceKind.userObjIds == s[r].resourceKind.userObjIds + [u]
  {
  }

  /** The lists of the other realms are as they were. */
  ghost predicate OthersKept(s: State, t: State, r: Id) {
    forall x {:trigger IsRealm(t, x)} :: IsRealm(t, x) && x != r ==>
      IsRealm(s, x) && t[x].resourceKind.userObjIds == s[x].resourceKind.userObjIds
  }

  lemma JoinedOnce(s: State, t: State, u: Id, r: Id)
    requires MembersOk(s) && IsRealm(s, r) && IsRealm(t, r) && OthersKept(s, t, r) && !ListsUser(s, r, u)
    requires t[r].resourceKind.userObjIds == s[r].resourceKind.userObjIds + [u]
    ensures forall x {:trigger IsRealm(t, x)} :: IsRealm(t, x) ==> NoDup(t[x].resourceKind.userObjIds)
  {
    AppendNoDup(s[r].resourceKind.userObjIds, u);
  }

  lemma JoinedOk(s: State, t: State, u: Id, r: Id)
    requires MembersOk(s) && SamePeople(s, t) && Joined(s, t, u, r) && IsUser(s, u) && IsRealm(s, r)
    requires NameFree(s, r, s[u].name)
    requires forall x {:trigger IsRealm(t, x)} :: IsRealm(t, x) ==> NoDup(t[x].resourceKind.userObjIds)
    ensures MembersOk(t)
  {
    forall x, y | ListsUser(t, x, y) ensures BelongsTo(t, y, x) {
      var listed := ListsUser(s, x, y);
    }
    forall x, a, b | ListsUser(t, x, a) && ListsUser(t, x, b) && t[a].name == t[b].name ensures a == b {
      var listed, listed' := ListsUser(s, x, a), ListsUser(s, x, b);
      assert BelongsTo(t, a, x) && BelongsTo(t, b, x) && IsUser(t, a) && IsUser(t, b);
      assert listed ==> IsMember(s, a, UserMember);
      assert listed' ==> IsMember(s, b, UserMember);
    }
  }

  // ----- removeUserId -----

  lemma RemoveUserIdMeans(s: State, r: Id, u: Id)
    requires MembersOk(s) && IsRealm(s, r)
    ensures var o := RemoveUserId(s, r, u);
      && (o.ok <==> BelongsTo(s, u, r))
      && (!o.ok ==> o.state == s)
      && (o.ok ==> Left(s, o.state, u, r) && SamePeople(s, o.state) && o.state[u].realmId == NO_ID)
      && MembersOk(o.state) && OnlyPlaces(s, o.state)
  {
    if BelongsTo(s, u, r) {
      PlaceOnly(s, r, RemoveFrom(u, s[r].resourceKind.userObjIds), u, NO_ID);
      RemoveUserIdLeaves(s, r, u);
      RemoveUserIdOnce(s, r, u);
      LeftOk(s, RemoveUserId(s, r, u).state, u, r);
    }
  }

  lemma RemoveUserIdLeaves(s: State, r: Id, u: Id)
    requires MembersOk(s) && IsRealm(s, r) && BelongsTo(s, u, r)
    ensures var t := RemoveUserId(s, r, u).state; Left(s, t, u, r) && SamePeople(s, t) && t[u].realmId == NO_ID
  {
    RemoveFromFacts(u, s[r].resourceKind.userObjIds);
  }

  lemma RemoveUserIdOnce(s: State, r: Id, u: Id)
    requires MembersOk(s) && IsRealm(s, r) && BelongsTo(s, u, r)
    ensures var t := RemoveUserId(s, r, u).state;
      forall x {:trigger IsRealm(t, x)} :: IsRealm(t, x) ==> NoDup(t[x].resourceKind.userObjIds)
  {
    RemoveFromFacts(u, s[r].resourceKind.userObjIds);
    var t := RemoveUserId(s, r, u).state;
    forall x | IsRealm(t, x) ensures NoDup(t[x].resourceKind.userObjIds) { assert IsRealm(s, x); }
  }

  lemma LeftOk(s: State, t: State, u: Id, r: Id)
    requires MembersOk(s) && SamePeople(s, t) && Left(s, t, u, r)
    requires forall x {:trigger IsRealm(t, x)} :: IsRealm(t, x) ==> NoDup(t[x].resourceKind.userObjIds)
    ensures MembersOk(t)
  {
    forall x, y | ListsUser(t, x, y) ensures BelongsTo(t, y, x) { assert ListsUser(s, x, y) && BelongsTo(s, y, x); }
    forall x, a, b | ListsUser(t, x, a) && ListsUser(t, x, b) && t[a].name == t[b].name ensures a == b {
      assert ListsUser(s, x, a) && ListsUser(s, x, b) && BelongsTo(t, a, x) && BelongsTo(t, b, x);
      assert IsUser(t, a) && IsUser(t, b);
    }
  }

  // ----- moveUserToRealm -----

  /** `t` has the memberships of `s`, but `u` has moved from realm `a` to realm `b`. */
  ghost predicate Moved(s: State, t: State, u: Id, a: Id, b: Id) {
    forall x, y {:trigger ListsUser(t, x, y)} :: ListsUser(t, x, y) <==> if y == u then x == b else ListsUser(s, x, y)
  }

  /**
  A move succeeds exactly when the destination is another live realm without a user of that name; it then moves one
  membership and leaves all others. When only the name is in the way, the user has already left its realm, and the
  failed move leaves it in none.
  */
  lemma MoveUserMeans(s: State, u: Id, b: Id)
    requires MembersOk(s)
    ensures var o := MoveUser(s, u, b);
      var started := IsRealm(s, b) && IsUser(s, u) && IsRealm(s, s[u].realmId) && s[u].realmId != b;
      && MembersOk(o.state) && OnlyPlaces(s, o.state)
      && (o.ok <==> started && NameFree(s, b, s[u].name))
      && (!started ==> o.state == s)
      && (o.ok ==> Moved(s, o.state, u, s[u].realmId, b) && BelongsTo(o.state, u, b))
      && (started && !o.ok ==> Left(s, o.state, u, s[u].realmId) && o.state[u].realmId == NO_ID)
  {
    if IsRealm(s, b) && IsUser(s, u) && IsRealm(s, s[u].realmId) && s[u].realmId != b {
      var a := s[u].realmId;
      RemoveUserIdMeans(s, a, u);
      var t := RemoveUserId(s, a, u).state;
      assert IsRealm(t, b) && IsUser(t, u);
      AddUserIdMeans(t, b, u);
      NameFreeKept(s, t, u, a, b);
      var o := AddUserId(t, b, u);
      OnlyPlacesTwice(s, t, o.state);
      if o.ok {
        forall x, y ensures ListsUser(o.state, x, y) <==> if y == u then x == b else ListsUser(s, x, y) {
          var listed, belongs := ListsUser(t, x, y), BelongsTo(s, y, x);
          var listed', belongs' := ListsUser(s, x, y), BelongsTo(t, y, x);
        }
      }
    }
  }

  lemma NameFreeKept(s: State, t: State, u: Id, a: Id, b: Id)
    requires IsRealm(s, b) && SamePeople(s, t) && Left(s, t, u, a) && a != b && IsRealm(t, b)
    ensures forall name :: NameFree(t, b, name) <==> NameFree(s, b, name)
  {
    var ids, ids' := s[b].resourceKind.userObjIds, t[b].resourceKind.userObjIds;
    forall x ensures x in ids <==> x in ids' { assert ListsUser(t, b, x) <==> ListsUser(s, b, x); }
    forall x ensures IsMember(t, x, UserMember) <==> IsMember(s, x, UserMember) { assert IsUser(t, x) <==> IsUser(s, x); }
    forall name ensures Taken(s, ids, UserMember, name) <==> Taken(t, ids', UserMember, name) {
      if Taken(s, ids, UserMember, name) {
        var x :| x in ids && IsMember(s, x, UserMember) && s[x].name == name;
        assert x in ids' && IsMember(t, x, UserMember) && IsUser(t, x) && t[x].name == name;
      }
      if Taken(t, ids', UserMember, name) {
        var x :| x in ids' && IsMember(t, x, UserMember) && t[x].name == name;
        assert x in ids && IsMember(s, x, UserMember) && IsUser(t, x) && s[x].name == name;
      }
    }
  }

  // ----- addUser and dbCreateUser -----

  lemma AddUserJoins(s: State, r: Id, u: Id)
    requires IsRealm(s, r) && IsUser(s, u) && NO_ID !in s && AddUser(s, r, u).ok
    ensures var t := AddUser(s, r, u).state;
      && SamePeople(s, t) && OthersKept(s, t, r) && BelongsTo(t, u, r)
      && IsRealm(t, r) && t[r].resourceKind.userObjIds == s[r].resourceKind.userObjIds + [u]
      && (forall x, y {:trigger ListsUser(t, x, y)} :: ListsUser(t, x, y) <==> ListsUser(s, x, y) || (x == r && y == u))
      && (forall y {:trigger IsUser(t, y)} :: IsUser(t, y) && y != u ==> t[y].realmId == s[y].realmId)
  {
  }

  /**
  addUser succeeds exactly when the name is free. It keeps the memberships in step exactly when no other realm lists the
  user: it takes the user off no list.
  */
  lemma AddUserIff(s: State, r: Id, u: Id)
    requires MembersOk(s) && IsRealm(s, r) && IsUser(s, u)
    ensures var o := AddUser(s, r, u);
      && (o.ok <==> NameFree(s, r, s[u].name)) && (!o.ok ==> o.state == s) && OnlyPlaces(s, o.state)
      && (o.ok ==> BelongsTo(o.state, u, r) && forall x, y {:trigger ListsUser(o.state, x, y)} ::
            ListsUser(o.state, x, y) <==> ListsUser(s, x, y) || (x == r && y == u))
      && (MembersOk(o.state) <==> (o.ok ==> forall x :: !ListsUser(s, x, u)))
  {
    UsersLive(s, r);
    FindByNameMeans(s, s[r].resourceKind.userObjIds, s[u].name, UserMember);
    PlaceOnly(s, r, s[r].resourceKind.userObjIds + [u], u, r);
    if AddUser(s, r, u).ok {
      AddUserJoins(s, r, u);
      AddedUserIff(s, AddUser(s, r, u).state, r, u);
    }
  }

  lemma AddedUserIff(s: State, t: State, r: Id, u: Id)
    requires MembersOk(s) && IsRealm(s, r) && IsUser(s, u) && NameFree(s, r, s[u].name)
    requires SamePeople(s, t) && OthersKept(s, t, r) && BelongsTo(t, u, r)
    requires IsRealm(t, r) && t[r].resourceKind.userObjIds == s[r].resourceKind.userObjIds + [u]
    requires forall x, y {:trigger ListsUser(t, x, y)} :: ListsUser(t, x, y) <==> ListsUser(s, x, y) || (x == r && y == u)
    requires forall y {:trigger IsUser(t, y)} :: IsUser(t, y) && y != u ==> t[y].realmId == s[y].realmId
    ensures MembersOk(t) <==> forall x :: !ListsUser(s, x, u)
  {
    assert !ListsUser(s, r, u) by { assert ListsUser(s, r, u) ==> IsMember(s, u, UserMember); }
    if x :| ListsUser(s, x, u) {
      assert ListsUser(t, x, u) && ListsUser(t, r, u) && x != r;
    } else {
      JoinedOnce(s, t, u, r);
      forall x, y | ListsUser(t, x, y) ensures BelongsTo(t, y, x) {
        var listed := ListsUser(s, x, y);
        assert listed ==> BelongsTo(s, y, x) && IsUser(t, y);
      }
      NamesStayApart(s, t, r, u);
    }
  }

  lemma NamesStayApart(s: State, t: State, r: Id, u: Id)
    requires MembersOk(s) && IsRealm(s, r) && IsUser(s, u) && NameFree(s, r, s[u].name) && SamePeople(s, t)
    requires forall x, y {:trigger ListsUser(t, x, y)} :: ListsUser(t, x, y) <==> ListsUser(s, x, y) || (x == r && y == u)
    requires forall x :: !ListsUser(s, x, u)
    ensures forall x, a, b {:trigger ListsUser(t, x, a), ListsUser(t, x, b)} ::
      ListsUser(t, x, a) && ListsUser(t, x, b) && IsUser(t, a) && IsUser(t, b) && t[a].name == t[b].name ==> a == b
  {
    forall x, a, b | ListsUser(t, x, a) && ListsUser(t, x, b) && IsUser(t, a) && IsUser(t, b) && t[a].name == t[b].name
      ensures a == b
    {
      var listed, listed' := ListsUser(s, x, a), ListsUser(s, x, b);
      assert IsMember(s, a, UserMember) && IsMember(s, b, UserMember);
    }
  }

  /** In dbCreateUser, addUser writes the realm that the user names already. */
  lemma CreateUserLists(s: State, r: Id, login: string, name: string, newId: Id)
    requires IsRealm(s, r) && newId !in s
    ensures var s1 := s[newId := NewUserRec(r, login, name)]; var ids := s[r].resourceKind.userObjIds;
      && IsRealm(s1, r)
      && CreateUser(s, r, login, name, newId)
         == if FindByName(s1, ids, name, UserMember) != NotNamed then Outcome(s1, false)
            else Outcome(WithUsers(s1, r, ids + [newId]), true)
  {
    var s1 := s[newId := NewUserRec(r, login, name)];
    var t := WithUsers(s1, r, s[r].resourceKind.userObjIds + [newId]);
    assert t[newId := InRealm(s1[newId], r)] == t;
  }

  /**
  Creating a user stores an active user with that name, login name and realm, and keeps the realm lists right even when
  the name check fails; then, and only then, the new user names a realm that does not list it.
  */
  lemma CreateUserMeans(s: State, r: Id, login: string, name: string, newId: Id)
    requires MembersOk(s) && IsRealm(s, r) && newId !in s && newId != NO_ID
    ensures var o := CreateUser(s, r, login, name, newId);
      && MembersOk(o.state) && BelongsTo(o.state, newId, r)
      && o.state[newId] == PartyRec(name, r, true, [], UserKind(login, []))
      && (forall y {:trigger o.state[y]} :: y in s && y != r ==> y in o.state && o.state[y] == s[y])
      && (o.ok <==> NameFree(s, r, name))
      && (o.ok <==> ListsUser(o.state, r, newId))
      && (forall x, y {:trigger ListsUser(o.state, x, y)} :: y != newId ==> (ListsUser(o.state, x, y) <==> ListsUser(s, x, y)))
      && (NobodyForgotten(s) ==> (NobodyForgotten(o.state) <==> o.ok))
  {
    var rec := NewUserRec(r, login, name);
    var s1 := s[newId := rec];
    UsersLive(s, r);
    StoreUser(s, newId, rec);
    NameFreeStored(s, r, newId, rec);
    AddUserIff(s1, r, newId);
    forall x ensures !ListsUser(s1, x, newId) { var listed := ListsUser(s, x, newId); }
    if CreateUser(s, r, login, name, newId).ok { AddUserJoins(s1, r, newId); }
    NobodyForgottenIff(s, CreateUser(s, r, login, name, newId).state, r, newId);
  }

  lemma NobodyForgottenIff(s: State, t: State, r: Id, newId: Id)
    requires newId !in s && NO_ID !in s && IsRealm(t, r) && BelongsTo(t, newId, r)
    requires forall x {:trigger IsRealm(t, x)} :: IsRealm(t, x) <==> IsRealm(s, x)
    requires forall x, y {:trigger BelongsTo(t, y, x)} :: BelongsTo(t, y, x) <==> BelongsTo(s, y, x) || (y == newId && x == r)
    requires forall x, y {:trigger ListsUser(t, x, y)} :: y != newId ==> (ListsUser(t, x, y) <==> ListsUser(s, x, y))
    ensures NobodyForgotten(s) ==> (NobodyForgotten(t) <==> ListsUser(t, r, newId))
  {
    if NobodyForgotten(s) && ListsUser(t, r, newId) {
      forall x, y | BelongsTo(t, y, x) && IsRealm(t, x) ensures ListsUser(t, x, y) { var belongs := BelongsTo(s, y, x); }
    }
  }

  lemma NameFreeStored(s: State, r: Id, newId: Id, rec: Record)
    requires IsRealm(s, r) && newId !in s && MembersLive(s, s[r].resourceKind.userObjIds, UserMember)
    ensures forall name :: NameFree(s[newId := rec], r, name) <==> NameFree(s, r, name)
  {
    var t, ids := s[newId := rec], s[r].resourceKind.userObjIds;
    forall name ensures Taken(s, ids, UserMember, name) <==> Taken(t, ids, UserMember, name) {
      if Taken(s, ids, UserMember, name) {
        var x :| x in ids && IsMember(s, x, UserMember) && s[x].name == name;
        assert IsMember(t, x, UserMember) && t[x].name == name;
      }
      if Taken(t, ids, UserMember, name) {
        var x :| x in ids && IsMember(t, x, UserMember) && t[x].name == name;
        assert IsMember(s, x, UserMember) && s[x].name == name;
      }
    }
  }

  lemma StoreUser(s: State, newId: Id, rec: Record)
    requires MembersOk(s) && newId !in s && newId != NO_ID && rec.PartyRec? && rec.partyKind.UserKind?
    ensures var t := s[newId := rec];
      && MembersOk(t)
      && (forall x, y {:trigger ListsUser(t, x, y)} :: ListsUser(t, x, y) <==> ListsUser(s, x, y))
      && (forall x, y {:trigger BelongsTo(t, y, x)} ::
            BelongsTo(t, y, x) <==> BelongsTo(s, y, x) || (y == newId && x == rec.realmId != NO_ID))
      && (forall x {:trigger IsRealm(t, x)} :: IsRealm(t, x) <==> IsRealm(s, x))
  {
    var t := s[newId := rec];
    assert forall x {:trigger IsRealm(t, x)} :: IsRealm(t, x) <==> IsRealm(s, x);
    assert forall x, y {:trigger ListsUser(t, x, y)} :: ListsUser(t, x, y) <==> ListsUser(s, x, y);
    forall x, y | ListsUser(t, x, y) ensures y != newId { assert ListsUser(s, x, y) && BelongsTo(s, y, x); }
  }

  // ----- Runs -----

  datatype MemberOp =
    | NewRealm(name: string)
    | NewUser(realmId: Id, login: string, name: string)
    | AddToRealm(realmId: Id, u: Id)
    | RemoveFromRealm(realmId: Id, u: Id)
    | Move(u: Id, destId: Id)

  function MemberStep(s: State, op: MemberOp, newId: Id): Outcome
    requires newId !in s
  {
    match op
    case NewRealm(n) => Outcome(s[newId := ResourceRec(n, NO_ID, [], RealmKind([], [], []))], true)
    case NewUser(r, login, n) => if IsRealm(s, r) then CreateUser(s, r, login, n, newId) else Outcome(s, false)
    case AddToRealm(r, u) => if IsRealm(s, r) then AddUserId(s, r, u) else Outcome(s, false)
    case RemoveFromRealm(r, u) => if IsRealm(s, r) then RemoveUserId(s, r, u) else Outcome(s, false)
    case Move(u, r) => MoveUser(s, u, r)
  }

  /** A run from `s` to `t`, whether its operations succeed or not; ids are handed out once. */
  ghost predicate MemberRun(s: State, ops: seq<(MemberOp, Id)>, t: State)
    decreases |ops|
  {
    if ops == [] then s == t
    else ops[0].1 !in s && ops[0].1 != NO_ID && MemberRun(MemberStep(s, ops[0].0, ops[0].1).state, ops[1..], t)
  }

  lemma StoreRealm(s: State, newId: Id, name: string)
    requires MembersOk(s) && newId !in s && newId != NO_ID
    ensures MembersOk(s[newId := ResourceRec(name, NO_ID, [], RealmKind([], [], []))])
  {
    var t := s[newId := ResourceRec(name, NO_ID, [], RealmKind([], [], []))];
    assert forall x, y {:trigger ListsUser(t, x, y)} :: ListsUser(t, x, y) <==> ListsUser(s, x, y);
    assert forall x, y {:trigger BelongsTo(t, y, x)} :: BelongsTo(t, y, x) <==> BelongsTo(s, y, x);
    forall x | IsRealm(t, x) ensures NoDup(t[x].resourceKind.userObjIds) { assert x != newId ==> IsRealm(s, x); }
    forall x, a, b | ListsUser(t, x, a) && ListsUser(t, x, b) && t[a].name == t[b].name ensures a == b {
      assert ListsUser(s, x, a) && ListsUser(s, x, b) && BelongsTo(s, a, x) && BelongsTo(s, b, x);
    }
  }

  /** In every reachable state a listed user names the realm that lists it; nobody is listed twice or by two realms. */
  lemma {:induction false} MemberRunKeeps(s: State, ops: seq<(MemberOp, Id)>, t: State)
    requires MembersOk(s) && MemberRun(s, ops, t)
    ensures MembersOk(t)
    ensures forall a, b, u :: ListsUser(t, a, u) && ListsUser(t, b, u) ==> a == b && IsUser(t, u) && t[u].realmId == a
    decreases |ops|
  {
    if ops != [] {
      MemberStepKeeps(s, ops[0].0, ops[0].1);
      MemberRunKeeps(MemberStep(s, ops[0].0, ops[0].1).state, ops[1..], t);
    } else {
      forall a, b, u | ListsUser(t, a, u) && ListsUser(t, b, u) ensures a == b && IsUser(t, u) && t[u].realmId == a {
        OneRealmPerUser(t, u, a, b);
        assert BelongsTo(t, u, a);
      }
    }
  }

  lemma MemberStepKeeps(s: State, op: MemberOp, newId: Id)
    requires MembersOk(s) && newId !in s && newId != NO_ID
    ensures MembersOk(MemberStep(s, op, newId).state)
  {
    match op
    case NewRealm(n) => StoreRealm(s, newId, n);
    case NewUser(r, login, n) => if IsRealm(s, r) { CreateUserMeans(s, r, login, n, newId); }
    case AddToRealm(r, u) => if IsRealm(s, r) { AddUserIdMeans(s, r, u); }
    case RemoveFromRealm(r, u) => if IsRealm(s, r) { RemoveUserIdMeans(s, r, u); }
    case Move(u, r) => MoveUserMeans(s, u, r);
  }
}
