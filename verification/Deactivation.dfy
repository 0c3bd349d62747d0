/** dbDeactivateRealm: after it, nobody is authorized for the realm or for anything in its repos. */
module Deactivation {
  import opened Basics
  import opened ObjectStore
  import opened Access
  import opened AccessProofs
  import opened ClearProofs
  import opened Authorization
  import opened AuthorizationProofs
  import opened ScanLinks

  /** deleteAllAccess */
  function ClearList(s: State, ids: seq<Id>): Outcome
    decreases |ids|
  {
    if ids == [] then Outcome(s, true)
    else if !IsResource(s, ids[0]) then Outcome(s, false)
    else
      var o := DeleteAllAccess(s, ids[0]);
      if !o.ok then o else ClearList(o.state, ids[1..])
  }

  /** A repo and the resources in it, in the order dbDeactivateRealm treats them. */
  function RepoContents(s: State, repoId: Id): seq<Id>
    requires IsRepo(s, repoId)
  {
    var k := s[repoId].resourceKind;
    k.dockerfileIds + k.dockerImageIds + k.scanConfigIds + k.flagIds
  }

  /** The loop over the realm's repos. */
  function ClearRepos(s: State, repoIds: seq<Id>): Outcome
    decreases |repoIds|
  {
    if repoIds == [] then Outcome(s, true)
    else if !IsRepo(s, repoIds[0]) then Outcome(s, false)
    else
      var o := ClearList(s, [repoIds[0]] + RepoContents(s, repoIds[0]));
      if !o.ok then o else ClearRepos(o.state, repoIds[1..])
  }

  /** The loops that make the realm's users and groups inactive. */
  function Inactivate(s: State, ids: seq<Id>, users: bool): Outcome
    decreases |ids|
  {
    if ids == [] then Outcome(s, true)
    else if !(if users then IsUser(s, ids[0]) else IsGroup(s, ids[0])) then Outcome(s, false)
    else Inactivate(s[ids[0] := s[ids[0]].(isActive := false)], ids[1..], users)
  }

  function Deactivate(s: State, realmId: Id): Outcome {
    if !IsRealm(s, realmId) then Outcome(s, false)
    else
      var realm := s[realmId].resourceKind;
      var o1 := DeleteAllAccess(s, realmId);
      if !o1.ok then o1 else
      var o2 := ClearRepos(o1.state, realm.repoIds);
      if !o2.ok then o2 else
      var o3 := Inactivate(o2.state, realm.userObjIds, true);
      if !o3.ok then o3 else Inactivate(o3.state, realm.groupIds, false)
  }

  // ----- What the loops do -----

  lemma EntriesOfTwice(s: State, a: set<Id>, b: set<Id>)
    ensures EntriesOf(s, a + b) == EntriesOf(s, a) + EntriesOf(Cleared(s, a), b)
  {
    var t := Cleared(s, a);
    forall e ensures IsEntry(t, e) <==> IsEntry(s, e) && e !in EntriesOf(s, a) { }
    forall e | IsEntry(t, e) ensures t[e] == s[e] { assert IsEntry(s, e); }
  }

  lemma ClearedTwice(s: State, a: set<Id>, b: set<Id>)
    requires Linked(s)
    ensures Linked(Cleared(s, a)) && Cleared(Cleared(s, a), b) == Cleared(s, a + b)
  {
    ClearedLinked(s, a);
    EntriesOfTwice(s, a, b);
    var t := Cleared(s, a);
    forall x | x in s
      ensures x in Cleared(t, b) <==> x in Cleared(s, a + b)
      ensures x in Cleared(s, a + b) ==> Cleared(t, b)[x] == Cleared(s, a + b)[x]
    {
      if s[x].PartyRec? { WithoutTwice(s[x].acl, EntriesOf(s, a), EntriesOf(t, b)); }
    }
  }

  /** Clearing keeps every resource and party, of the same kind. */
  lemma ClearedKinds(s: State, a: set<Id>)
    ensures forall x {:trigger IsResource(Cleared(s, a), x)} :: IsResource(Cleared(s, a), x) <==> IsResource(s, x)
    ensures forall x {:trigger IsParty(Cleared(s, a), x)} :: IsParty(Cleared(s, a), x) <==> IsParty(s, x)
    ensures forall x :: IsResource(s, x) ==>
      Cleared(s, a)[x].resourceKind == s[x].resourceKind && Cleared(s, a)[x].parentId == s[x].parentId
    ensures forall x :: IsParty(s, x) ==> Cleared(s, a)[x].partyKind == s[x].partyKind
  {
  }

  function Members(ids: seq<Id>): set<Id> { set x | x in ids }

  ghost predicate AllResources(s: State, ids: seq<Id>) {
    forall x :: x in ids ==> IsResource(s, x)
  }

  lemma MembersFirst(ids: seq<Id>)
    requires ids != []
    ensures Members(ids) == {ids[0]} + Members(ids[1..])
  {
  }

  lemma AllResourcesFirst(s: State, ids: seq<Id>)
    requires ids != []
    ensures AllResources(s, ids) <==> IsResource(s, ids[0]) && AllResources(s, ids[1..])
  {
    assert forall x :: x in ids <==> x == ids[0] || x in ids[1..];
  }

  lemma AllResourcesCleared(s: State, a: set<Id>, ids: seq<Id>)
    ensures AllResources(Cleared(s, a), ids) <==> AllResources(s, ids)
  {
    forall x ensures IsResource(Cleared(s, a), x) <==> IsResource(s, x) { }
  }

  lemma {:induction false} ClearListClears(s: State, ids: seq<Id>)
    requires Linked(s)
    ensures var o := ClearList(s, ids);
      (o.ok <==> AllResources(s, ids)) && (o.ok ==> o.state == Cleared(s, Members(ids)))
    decreases |ids|
  {
    if ids == [] {
      ClearedNothing(s);
      assert Members(ids) == {};
    } else {
      AllResourcesFirst(s, ids);
      if IsResource(s, ids[0]) {
        DeleteAllAccessClears(s, ids[0]);
        ClearedTwice(s, {ids[0]}, Members(ids[1..]));
        AllResourcesCleared(s, {ids[0]}, ids[1..]);
        ClearListClears(Cleared(s, {ids[0]}), ids[1..]);
        MembersFirst(ids);
      }
    }
  }

  lemma ClearedNothing(s: State)
    ensures Cleared(s, {}) == s
  {
    assert EntriesOf(s, {}) == {};
    forall x | x in s ensures x in Cleared(s, {}) && Cleared(s, {})[x] == s[x] {
      if s[x].PartyRec? { WithoutNothing(s[x].acl, {}); }
    }
  }

  /** The repos with everything in them. */
  function ReposContents(s: State, repoIds: seq<Id>): set<Id> {
    if repoIds == [] then {}
    else (if IsRepo(s, repoIds[0]) then Members([repoIds[0]] + RepoContents(s, repoIds[0])) else {})
         + ReposContents(s, repoIds[1..])
  }

  /** Every repo is a repo and everything it lists is a resource. */
  ghost predicate ReposLive(s: State, repoIds: seq<Id>) {
    repoIds == [] || (IsRepo(s, repoIds[0]) && AllResources(s, RepoContents(s, repoIds[0])) && ReposLive(s, repoIds[1..]))
  }

  lemma {:induction false} ReposLiveCleared(s: State, a: set<Id>, repoIds: seq<Id>)
    ensures ReposLive(Cleared(s, a), repoIds) <==> ReposLive(s, repoIds)
    ensures ReposContents(Cleared(s, a), repoIds) == ReposContents(s, repoIds)
  {
    ClearedKinds(s, a);
    if repoIds != [] {
      ReposLiveCleared(s, a, repoIds[1..]);
      assert IsResource(Cleared(s, a), repoIds[0]) <==> IsResource(s, repoIds[0]);
    }
  }

  lemma {:induction false} ClearReposClears(s: State, repoIds: seq<Id>)
    requires Linked(s)
    ensures var o := ClearRepos(s, repoIds);
      && (o.ok <==> ReposLive(s, repoIds))
      && (o.ok ==> o.state == Cleared(s, ReposContents(s, repoIds)))
    decreases |repoIds|
  {
    if repoIds == [] {
      ClearedNothing(s);
    } else if IsRepo(s, repoIds[0]) {
      var ids := [repoIds[0]] + RepoContents(s, repoIds[0]);
      ClearListClears(s, ids);
      assert forall x :: x in ids <==> x == repoIds[0] || x in RepoContents(s, repoIds[0]);
      if ClearList(s, ids).ok {
        ReposLiveCleared(s, Members(ids), repoIds[1..]);
        ClearedTwice(s, Members(ids), ReposContents(s, repoIds[1..]));
        ClearReposClears(Cleared(s, Members(ids)), repoIds[1..]);
      }
    }
  }

  /** The parties in `ids` are inactive; nothing else differs. */
  function Inactive(s: State, ids: set<Id>): State {
    map x | x in s :: if IsParty(s, x) && x in ids then s[x].(isActive := false) else s[x]
  }

  /** Every id names a user, or every id a group. */
  ghost predicate AllParties(s: State, ids: seq<Id>, users: bool) {
    forall x :: x in ids ==> if users then IsUser(s, x) else IsGroup(s, x)
  }

  lemma InactivateFirst(s: State, ids: seq<Id>, users: bool)
    requires ids != [] && if users then IsUser(s, ids[0]) else IsGroup(s, ids[0])
    ensures var t := s[ids[0] := s[ids[0]].(isActive := false)];
      && (AllParties(t, ids[1..], users) <==> AllParties(s, ids, users))
      && Inactive(t, Members(ids[1..])) == Inactive(s, Members(ids))
  {
    var t := s[ids[0] := s[ids[0]].(isActive := false)];
    assert forall y :: y in ids <==> y == ids[0] || y in ids[1..];
    forall x ensures (IsUser(t, x) <==> IsUser(s, x)) && (IsGroup(t, x) <==> IsGroup(s, x)) { }
    MembersFirst(ids);
  }

  lemma {:induction false} InactivateMeans(s: State, ids: seq<Id>, users: bool)
    ensures var o := Inactivate(s, ids, users);
      (o.ok <==> AllParties(s, ids, users)) && (o.ok ==> o.state == Inactive(s, Members(ids)))
    decreases |ids|
  {
    if ids == [] {
      assert Inactive(s, Members(ids)) == s;
    } else if if users then IsUser(s, ids[0]) else IsGroup(s, ids[0]) {
      InactivateFirst(s, ids, users);
      InactivateMeans(s[ids[0] := s[ids[0]].(isActive := false)], ids[1..], users);
    } else {
      assert ids[0] in ids;
    }
  }

  // ----- The resources of a realm, as its lists say -----

  predicate ListsRepo(s: State, r: Id, x: Id) { IsRealm(s, r) && x in s[r].resourceKind.repoIds }
  predicate ListsDockerfile(s: State, r: Id, x: Id) { IsRepo(s, r) && x in s[r].resourceKind.dockerfileIds }

  /** The repo lists it: as a dockerfile, an image, a scan config or a flag. */
  predicate InRepo(s: State, r: Id, x: Id) { ListsDockerfile(s, r, x) || RepoLists(s, r, x) }

  /** The realm, a repo that it lists, or something that such a repo lists. */
  ghost predicate Beneath(s: State, realmId: Id, x: Id) {
    x == realmId || ListsRepo(s, realmId, x) || exists r :: ListsRepo(s, realmId, r) && InRepo(s, r, x)
  }

  ghost function Subtree(s: State, realmId: Id): set<Id> { set x | x in s && Beneath(s, realmId, x) }

  /** The users and groups of the realm. */
  function MembersOf(s: State, realmId: Id): set<Id>
    requires IsRealm(s, realmId)
  {
    Members(s[realmId].resourceKind.userObjIds) + Members(s[realmId].resourceKind.groupIds)
  }

  /** Every id the realm and its repos list names an object of the right type. */
  ghost predicate RealmLive(s: State, realmId: Id) {
    && IsRealm(s, realmId)
    && (forall r :: ListsRepo(s, realmId, r) ==> IsRepo(s, r))
    && (forall x :: Beneath(s, realmId, x) ==> IsResource(s, x))
    && AllParties(s, s[realmId].resourceKind.userObjIds, true)
    && AllParties(s, s[realmId].resourceKind.groupIds, false)
  }

  /** What the loops go through. */
  function Visited(s: State, realmId: Id): set<Id>
    requires IsRealm(s, realmId)
  {
    {realmId} + ReposContents(s, s[realmId].resourceKind.repoIds)
  }

  lemma ContentsAre(s: State, r: Id, x: Id)
    requires IsRepo(s, r)
    ensures x in RepoContents(s, r) <==> InRepo(s, r, x)
  {
  }

  lemma {:induction false} ReposContentsAre(s: State, repoIds: seq<Id>, x: Id)
    requires forall r :: r in repoIds ==> IsRepo(s, r)
    ensures x in ReposContents(s, repoIds) <==> x in repoIds || exists r :: r in repoIds && InRepo(s, r, x)
  {
    if repoIds != [] {
      assert forall r :: r in repoIds <==> r == repoIds[0] || r in repoIds[1..];
      ReposContentsAre(s, repoIds[1..], x);
      ContentsAre(s, repoIds[0], x);
      assert x in Members([repoIds[0]] + RepoContents(s, repoIds[0])) <==> x == repoIds[0] || InRepo(s, repoIds[0], x);
    }
  }

  lemma {:induction false} ReposLiveIff(s: State, repoIds: seq<Id>)
    ensures ReposLive(s, repoIds) <==>
      forall r :: r in repoIds ==> IsRepo(s, r) && forall x :: InRepo(s, r, x) ==> IsResource(s, x)
  {
    if repoIds != [] {
      assert forall r :: r in repoIds <==> r == repoIds[0] || r in repoIds[1..];
      ReposLiveIff(s, repoIds[1..]);
      if IsRepo(s, repoIds[0]) {
        forall x ensures x in RepoContents(s, repoIds[0]) <==> InRepo(s, repoIds[0], x) { ContentsAre(s, repoIds[0], x); }
      }
    }
  }

  /** When everything listed is live, the loops go through the resources of the realm, all of them and no others. */
  lemma VisitedIsSubtree(s: State, realmId: Id)
    requires IsRealm(s, realmId)
    ensures RealmLive(s, realmId) <==>
      && ReposLive(s, s[realmId].resourceKind.repoIds)
      && AllParties(s, s[realmId].resourceKind.userObjIds, true)
      && AllParties(s, s[realmId].resourceKind.groupIds, false)
    ensures RealmLive(s, realmId) ==> Visited(s, realmId) == Subtree(s, realmId)
  {
    LiveIff(s, realmId);
    if RealmLive(s, realmId) {
      assert forall r :: r in s[realmId].resourceKind.repoIds ==> ListsRepo(s, realmId, r);
      forall x ensures x in Visited(s, realmId) <==> x in Subtree(s, realmId) {
        VisitedIff(s, realmId, x);
        if Beneath(s, realmId, x) { assert IsResource(s, x); }
      }
      assert Visited(s, realmId) == Subtree(s, realmId);
    }
  }

  /** The repos and what they list are live exactly when everything beneath the realm is. */
  lemma LiveIff(s: State, realmId: Id)
    requires IsRealm(s, realmId)
    ensures ReposLive(s, s[realmId].resourceKind.repoIds) <==>
      && (forall r :: ListsRepo(s, realmId, r) ==> IsRepo(s, r))
      && (forall x :: Beneath(s, realmId, x) ==> IsResource(s, x))
  {
    var repoIds := s[realmId].resourceKind.repoIds;
    ReposLiveIff(s, repoIds);
    assert forall r :: ListsRepo(s, realmId, r) <==> r in repoIds;
    if forall x :: Beneath(s, realmId, x) ==> IsResource(s, x) {
      forall r, x | r in repoIds && InRepo(s, r, x) ensures IsResource(s, x) { assert Beneath(s, realmId, x); }
    }
  }

  lemma VisitedIff(s: State, realmId: Id, x: Id)
    requires IsRealm(s, realmId) && forall r :: r in s[realmId].resourceKind.repoIds ==> IsRepo(s, r)
    ensures x in Visited(s, realmId) <==> Beneath(s, realmId, x)
  {
    ReposContentsAre(s, s[realmId].resourceKind.repoIds, x);
    if exists r :: r in s[realmId].resourceKind.repoIds && InRepo(s, r, x) {
      var r :| r in s[realmId].resourceKind.repoIds && InRepo(s, r, x);
      assert ListsRepo(s, realmId, r);
    }
  }

  /** The first half of dbDeactivateRealm: the access lists. */
  lemma ClearRealmMeans(s: State, realmId: Id)
    requires Linked(s) && IsRealm(s, realmId)
    ensures var o1 := DeleteAllAccess(s, realmId); var o2 := ClearRepos(o1.state, s[realmId].resourceKind.repoIds);
      && o1.ok && (o2.ok <==> ReposLive(s, s[realmId].resourceKind.repoIds))
      && (o2.ok ==> o2.state == Cleared(s, Visited(s, realmId)))
  {
    var repoIds := s[realmId].resourceKind.repoIds;
    DeleteAllAccessClears(s, realmId);
    ReposLiveCleared(s, {realmId}, repoIds);
    ClearedTwice(s, {realmId}, ReposContents(s, repoIds));
    ClearReposClears(Cleared(s, {realmId}), repoIds);
  }

  /** The second half: the users, then the groups. */
  lemma InactivateBoth(s: State, userIds: seq<Id>, groupIds: seq<Id>)
    ensures var o3 := Inactivate(s, userIds, true); var o4 := if !o3.ok then o3 else Inactivate(o3.state, groupIds, false);
      && (o4.ok <==> AllParties(s, userIds, true) && AllParties(s, groupIds, false))
      && (o4.ok ==> o4.state == Inactive(s, Members(userIds) + Members(groupIds)))
  {
    var t := Inactive(s, Members(userIds));
    InactivateMeans(s, userIds, true);
    InactivateMeans(t, groupIds, false);
    InactiveTwice(s, Members(userIds), Members(groupIds));
    forall x ensures IsGroup(t, x) <==> IsGroup(s, x) { }
  }

  /**
  dbDeactivateRealm succeeds exactly when everything that the realm and its repos list is live, and then does two things
  and nothing else: it clears the resources of the realm, and makes its users and groups inactive.
  */
  lemma DeactivateMeans(s: State, realmId: Id)
    requires Linked(s)
    ensures Deactivate(s, realmId).ok <==> RealmLive(s, realmId)
    ensures RealmLive(s, realmId) ==>
      Deactivate(s, realmId).state == Inactive(Cleared(s, Subtree(s, realmId)), MembersOf(s, realmId))
  {
    if IsRealm(s, realmId) {
      VisitedIsSubtree(s, realmId);
      DeactivateVisits(s, realmId);
    }
  }

  lemma DeactivateVisits(s: State, realmId: Id)
    requires Linked(s) && IsRealm(s, realmId)
    ensures var o := Deactivate(s, realmId); var realm := s[realmId].resourceKind;
      && (o.ok <==> ReposLive(s, realm.repoIds) && AllParties(s, realm.userObjIds, true) && AllParties(s, realm.groupIds, false))
      && (o.ok ==> o.state == Inactive(Cleared(s, Visited(s, realmId)), MembersOf(s, realmId)))
  {
    var realm := s[realmId].resourceKind;
    ClearRealmMeans(s, realmId);
    InactivateBoth(Cleared(s, Visited(s, realmId)), realm.userObjIds, realm.groupIds);
    ClearedParties(s, Visited(s, realmId));
  }

  lemma ClearedParties(s: State, a: set<Id>)
    ensures forall x {:trigger IsUser(Cleared(s, a), x)} :: IsUser(Cleared(s, a), x) <==> IsUser(s, x)
    ensures forall x {:trigger IsGroup(Cleared(s, a), x)} :: IsGroup(Cleared(s, a), x) <==> IsGroup(s, x)
  {
  }

  lemma InactiveTwice(s: State, a: set<Id>, b: set<Id>)
    ensures Inactive(Inactive(s, a), b) == Inactive(s, a + b)
  {
  }

  // ----- Who may do what afterwards -----

  /** The realm has no parent, its repos are its children, and what a repo lists are the repo's children. */
  ghost predicate TreeParents(s: State, realmId: Id)
    requires IsRealm(s, realmId)
  {
    && s[realmId].parentId == NO_ID
    && (forall r :: ListsRepo(s, realmId, r) ==> IsRepo(s, r) && s[r].parentId == realmId)
    && (forall r, x :: ListsRepo(s, realmId, r) && InRepo(s, r, x) ==> IsResource(s, x) && s[x].parentId == r)
  }

  /** Without an entry on the resource or its parent, no walk over a party's list allows the action. */
  lemma {:induction false} NoEntryNoWalk(s: State, ids: seq<Id>, resourceId: Id, k: nat)
    requires Sized(s) && k < MASK_LENGTH && forall e :: IsEntry(s, e) ==> s[e].resourceId != resourceId
    ensures WalkEntries(s, ids, resourceId, k) != Allowed
  {
    if ids != [] { NoEntryNoWalk(s, ids[1..], resourceId, k); }
  }

  lemma {:induction false} NoEntryNotAllowed(s: State, partyId: Id, groupIds: seq<Id>, resourceId: Id, k: nat)
    requires Sized(s) && IsParty(s, partyId) && IsResource(s, resourceId) && k < MASK_LENGTH
    requires forall e :: IsEntry(s, e) ==> s[e].resourceId != resourceId
    requires forall e :: IsEntry(s, e) ==> s[resourceId].parentId == NO_ID || s[e].resourceId != s[resourceId].parentId
    ensures AnyPartyCanReach(s, partyId, groupIds, Single(k), resourceId) != Allowed
    decreases |groupIds|
  {
    SingleAction(k);
    NoEntryNoWalk(s, s[partyId].acl, resourceId, k);
    if s[resourceId].parentId != NO_ID { NoEntryNoWalk(s, s[partyId].acl, s[resourceId].parentId, k); }
    if groupIds != [] && IsParty(s, groupIds[0]) {
      NoEntryNotAllowed(s, groupIds[0], groupIds[1..], resourceId, k);
    }
  }

  /** Inactivating parties leaves the entries and the lists alone. */
  lemma InactiveConsistent(s: State, ids: set<Id>)
    requires Consistent(s)
    ensures Consistent(Inactive(s, ids)) && MatrixOf(Inactive(s, ids)) == MatrixOf(s)
  {
    SameAccessConsistent(s, Inactive(s, ids));
  }

  /** What dbDeactivateRealm leaves of the realm has no entry in it. */
  lemma DeactivatedEntries(s: State, realmId: Id)
    requires Consistent(s) && Deactivate(s, realmId).ok && IsRealm(s, realmId)
    ensures var t := Deactivate(s, realmId).state;
      Consistent(t) && forall e :: IsEntry(t, e) ==> t[e].resourceId !in Subtree(s, realmId)
  {
    DeactivateMeans(s, realmId);
    var u := Cleared(s, Subtree(s, realmId));
    ClearedLinked(s, Subtree(s, realmId));
    ClearedConsistent(s, Subtree(s, realmId));
    InactiveConsistent(u, MembersOf(s, realmId));
    forall e | IsEntry(Inactive(u, MembersOf(s, realmId)), e) ensures u[e].resourceId !in Subtree(s, realmId) {
      assert IsEntry(u, e) && IsEntry(s, e);
    }
  }

  /** The tree is the same. */
  lemma DeactivatedTree(s: State, realmId: Id, x: Id)
    requires Linked(s) && Deactivate(s, realmId).ok
    requires IsRealm(s, realmId) && TreeParents(s, realmId) && x in Subtree(s, realmId)
    ensures var t := Deactivate(s, realmId).state;
      && IsResource(s, x) && IsResource(t, x) && t[x].parentId == s[x].parentId
      && (s[x].parentId == NO_ID || s[x].parentId in Subtree(s, realmId))
  {
    ParentInside(s, realmId, x);
    DeactivateMeans(s, realmId);
    ClearedKinds(s, Subtree(s, realmId));
    assert IsResource(s, x) && IsResource(Cleared(s, Subtree(s, realmId)), x);
  }

  lemma ParentInside(s: State, realmId: Id, x: Id)
    requires IsRealm(s, realmId) && TreeParents(s, realmId) && x in Subtree(s, realmId)
    ensures IsResource(s, x) && (s[x].parentId == NO_ID || s[x].parentId in Subtree(s, realmId))
  {
    if x != realmId && !ListsRepo(s, realmId, x) {
      var r :| ListsRepo(s, realmId, r) && InRepo(s, r, x);
      assert Beneath(s, realmId, r);
    }
  }

  /**
  When dbDeactivateRealm returns without error, authorized answers yes to nobody, for no action, on the realm, its repos
  or anything that they list; to a user whose groups are live it answers no.
  */
  lemma NobodyAuthorized(s: State, realmId: Id, users: map<string, Id>, login: Option<string>, x: Id, k: nat)
    requires Consistent(s) && k < MASK_LENGTH && Deactivate(s, realmId).ok
    requires IsRealm(s, realmId) && TreeParents(s, realmId) && Beneath(s, realmId, x)
    ensures var t := Deactivate(s, realmId).state;
      && Consistent(t)
      && Authorized(t, users, login, Single(k), x) != Allowed
      && (login.Some? && login.value in users && RefsLive(t, users[login.value], x) ==>
            Authorized(t, users, login, Single(k), x) == Refused)
  {
    var t := Deactivate(s, realmId).state;
    DeactivatedEntries(s, realmId);
    DeactivatedTree(s, realmId, x);
    RightlessRefused(t, users, login, x, k);
  }

  /** No entry is on the resource or its parent: nobody is allowed, and a user whose groups are live is refused. */
  lemma RightlessRefused(t: State, users: map<string, Id>, login: Option<string>, x: Id, k: nat)
    requires Consistent(t) && k < MASK_LENGTH && IsResource(t, x)
    requires forall e :: IsEntry(t, e) ==> t[e].resourceId != x && (t[x].parentId != NO_ID ==> t[e].resourceId != t[x].parentId)
    ensures Authorized(t, users, login, Single(k), x) != Allowed
    ensures login.Some? && login.value in users && RefsLive(t, users[login.value], x) ==>
      Authorized(t, users, login, Single(k), x) == Refused
  {
    if login.Some? && login.value in users && IsUser(t, users[login.value]) {
      var u := users[login.value];
      NoEntryNotAllowed(t, u, t[u].partyKind.groupIds, x, k);
      SingleAction(k);
      if RefsLive(t, u, x) { AuthorizedIff(t, users, login.value, x, k); }
    }
  }

  /** Every permission outside the realm is as it was, and none is left inside. */
  lemma DeactivateKeepsTheRest(s: State, realmId: Id)
    requires Consistent(s) && Deactivate(s, realmId).ok && IsRealm(s, realmId)
    ensures var t := Deactivate(s, realmId).state;
      && Consistent(t)
      && (forall p, r :: (p, r) in MatrixOf(t) <==> (p, r) in MatrixOf(s) && !Beneath(s, realmId, r))
      && (forall p, r :: (p, r) in MatrixOf(t) ==> MatrixOf(t)[(p, r)] == MatrixOf(s)[(p, r)])
  {
    DeactivateMeans(s, realmId);
    ClearedConsistent(s, Subtree(s, realmId));
    InactiveConsistent(Cleared(s, Subtree(s, realmId)), MembersOf(s, realmId));
  }

  /** The users and groups that the realm lists are inactive, and no other party changes. */
  lemma DeactivateInactivates(s: State, realmId: Id)
    requires Linked(s) && Deactivate(s, realmId).ok && IsRealm(s, realmId)
    ensures var t := Deactivate(s, realmId).state; var realm := s[realmId].resourceKind;
      forall u :: IsParty(s, u) ==>
        IsParty(t, u) && t[u].isActive == (s[u].isActive && u !in realm.userObjIds && u !in realm.groupIds)
  {
    DeactivateMeans(s, realmId);
    forall u | IsParty(s, u)
      ensures var t := Inactive(Cleared(s, Subtree(s, realmId)), MembersOf(s, realmId));
        IsParty(t, u) && t[u].isActive == (s[u].isActive && u !in MembersOf(s, realmId))
    {
      InactiveParty(Cleared(s, Subtree(s, realmId)), MembersOf(s, realmId), u);
      ClearedParty(s, Subtree(s, realmId), u);
    }
  }

  lemma ClearedParty(s: State, a: set<Id>, u: Id)
    requires IsParty(s, u)
    ensures IsParty(Cleared(s, a), u) && Cleared(s, a)[u].isActive == s[u].isActive
  {
  }

  lemma InactiveParty(s: State, ids: set<Id>, u: Id)
    requires IsParty(s, u)
    ensures IsParty(Inactive(s, ids), u) && Inactive(s, ids)[u].isActive == (s[u].isActive && u !in ids)
  {
  }
}
