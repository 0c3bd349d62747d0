/**
Group membership: a group lists its users, and a user lists its groups. A user is added on both sides, but removed on
one side only, and authorization asks the other side.
*/
module GroupMembership {
  import opened Basics
  import opened ObjectStore
  import opened Access
  import opened AccessProofs
  import opened Authorization
  import opened AuthorizationProofs

  function WithMembers(s: State, g: Id, ids: seq<Id>): State
    requires IsGroup(s, g)
  {
    s[g := s[g].(partyKind := GroupKind(ids))]
  }

  function WithGroupIds(s: State, u: Id, ids: seq<Id>): State
    requires IsUser(s, u)
  {
    s[u := s[u].(partyKind := UserKind(s[u].partyKind.userId, ids))]
  }

  /** user.addGroupIdDeferredUpdate */
  function AddGroupId(s: State, u: Id, g: Id): Outcome
    requires IsUser(s, u)
  {
    if !IsGroup(s, g) || g in s[u].partyKind.groupIds then Outcome(s, false)
    else Outcome(WithGroupIds(s, u, s[u].partyKind.groupIds + [g]), true)
  }

  /** group.addUserId: the group's list is changed before the user's list is looked at. */
  function AddMember(s: State, g: Id, u: Id): Outcome
    requires IsGroup(s, g)
  {
    var ids := s[g].partyKind.userObjIds;
    if !IsUser(s, u) || u in ids then Outcome(s, false)
    else AddGroupId(WithMembers(s, g, ids + [u]), u, g)
  }

  /** group.removeUser: only the group's list changes. */
  function RemoveMember(s: State, g: Id, u: Id): Outcome
    requires IsGroup(s, g)
  {
    var ids := s[g].partyKind.userObjIds;
    if u !in ids then Outcome(s, false) else Outcome(WithMembers(s, g, RemoveFrom(u, ids)), true)
  }

  /** The handler addGroupUser, once the caller is authorized: it updates the user's list a second time, and ignores the result. */
  function AddGroupUser(s: State, g: Id, u: Id): Outcome {
    if !IsGroup(s, g) then Outcome(s, false)
    else
      var o := AddMember(s, g, u);
      if !o.ok || !IsUser(o.state, u) then Outcome(o.state, false) else Outcome(AddGroupId(o.state, u, g).state, true)
  }

  /** The handler remGroupUser, once the caller is authorized. */
  function RemGroupUser(s: State, g: Id, u: Id): Outcome {
    if !IsGroup(s, g) || !IsUser(s, u) then Outcome(s, false) else RemoveMember(s, g, u)
  }

  // ----- What holds of the two sides -----

  predicate HasMember(s: State, g: Id, u: Id) { IsGroup(s, g) && u in s[g].partyKind.userObjIds }
  predicate MemberOf(s: State, u: Id, g: Id) { IsUser(s, u) && g in s[u].partyKind.groupIds }

  /** What a group lists has the group; what a user lists is a live group; no list has a repetition. */
  ghost predicate GroupsOk(s: State) {
    && (forall g, u {:trigger HasMember(s, g, u)} :: HasMember(s, g, u) ==> MemberOf(s, u, g))
    && (forall g, u {:trigger MemberOf(s, u, g)} :: MemberOf(s, u, g) ==> IsGroup(s, g))
    && (forall g {:trigger IsGroup(s, g)} :: IsGroup(s, g) ==> NoDup(s[g].partyKind.userObjIds))
    && (forall u {:trigger IsUser(s, u)} :: IsUser(s, u) ==> NoDup(s[u].partyKind.groupIds))
  }

  /** Every group that a user lists, lists the user. */
  ghost predicate NobodyDropped(s: State) {
    forall g, u {:trigger MemberOf(s, u, g)} :: MemberOf(s, u, g) ==> HasMember(s, g, u)
  }

  /** `t` has the memberships of `s`, and that of `u` in `g` on both sides. */
  ghost predicate Enrolled(s: State, t: State, g: Id, u: Id) {
    && (forall x, y {:trigger HasMember(t, x, y)} :: HasMember(t, x, y) <==> HasMember(s, x, y) || (x == g && y == u))
    && (forall x, y {:trigger MemberOf(t, y, x)} :: MemberOf(t, y, x) <==> MemberOf(s, y, x) || (x == g && y == u))
  }

  /** The record without the groups that a user lists and without the users that a group lists. */
  function Unlisted(rec: Record): Record {
    match rec
    case PartyRec(n, r, a, acl, UserKind(id, _)) => PartyRec(n, r, a, acl, UserKind(id, []))
    case PartyRec(n, r, a, acl, GroupKind(_)) => PartyRec(n, r, a, acl, GroupKind([]))
    case _ => rec
  }

  /** Nothing but group membership differs. */
  ghost predicate OnlyRosters(s: State, t: State) {
    t.Keys == s.Keys && forall x {:trigger t[x]} :: x in s ==> Unlisted(t[x]) == Unlisted(s[x])
  }

  lemma RosterOnly(s: State, g: Id, ids: seq<Id>)
    requires IsGroup(s, g)
    ensures OnlyRosters(s, WithMembers(s, g, ids))
  {
  }

  lemma AddMemberOnly(s: State, g: Id, u: Id)
    requires IsGroup(s, g)
    ensures OnlyRosters(s, AddMember(s, g, u).state)
  {
  }

  /** The groups and users that exist are the same. */
  ghost predicate SameParties(s: State, t: State) {
    && (forall x {:trigger IsGroup(t, x)} :: IsGroup(t, x) <==> IsGroup(s, x))
    && (forall x {:trigger IsUser(t, x)} :: IsUser(t, x) <==> IsUser(s, x))
  }

  /** No list of a group or a user has a repetition. */
  ghost predicate ListedOnce(s: State) {
    && (forall g {:trigger IsGroup(s, g)} :: IsGroup(s, g) ==> NoDup(s[g].partyKind.userObjIds))
    && (forall u {:trigger IsUser(s, u)} :: IsUser(s, u) ==> NoDup(s[u].partyKind.groupIds))
  }

  // ----- Adding -----

  lemma WithMembersAdded(s: State, g: Id, u: Id)
    requires ListedOnce(s) && IsGroup(s, g) && !HasMember(s, g, u)
    ensures var t := WithMembers(s, g, s[g].partyKind.userObjIds + [u]);
      && SameParties(s, t) && ListedOnce(t)
      && (forall x, y {:trigger HasMember(t, x, y)} :: HasMember(t, x, y) <==> HasMember(s, x, y) || (x == g && y == u))
      && (forall x, y {:trigger MemberOf(t, y, x)} :: MemberOf(t, y, x) <==> MemberOf(s, y, x))
  {
    var t := WithMembers(s, g, s[g].partyKind.userObjIds + [u]);
    AppendNoDup(s[g].partyKind.userObjIds, u);
    forall x | IsGroup(t, x) ensures NoDup(t[x].partyKind.userObjIds) { assert IsGroup(s, x); }
    forall x | IsUser(t, x) ensures NoDup(t[x].partyKind.groupIds) { assert IsUser(s, x); }
  }

  lemma WithGroupIdsAdded(s: State, u: Id, g: Id)
    requires ListedOnce(s) && IsUser(s, u) && !MemberOf(s, u, g)
    ensures var t := WithGroupIds(s, u, s[u].partyKind.groupIds + [g]);
      && SameParties(s, t) && ListedOnce(t)
      && (forall x, y {:trigger HasMember(t, x, y)} :: HasMember(t, x, y) <==> HasMember(s, x, y))
      && (forall x, y {:trigger MemberOf(t, y, x)} :: MemberOf(t, y, x) <==> MemberOf(s, y, x) || (x == g && y == u))
  {
    var t := WithGroupIds(s, u, s[u].partyKind.groupIds + [g]);
    AppendNoDup(s[u].partyKind.groupIds, g);
    forall x | IsGroup(t, x) ensures NoDup(t[x].partyKind.userObjIds) { assert IsGroup(s, x); }
    forall x | IsUser(t, x) ensures NoDup(t[x].partyKind.groupIds) { assert IsUser(s, x); }
  }

  lemma EnrolledOk(s: State, t: State, g: Id, u: Id)
    requires GroupsOk(s) && Enrolled(s, t, g, u) && SameParties(s, t) && ListedOnce(t) && IsGroup(s, g)
    ensures GroupsOk(t) && (NobodyDropped(s) ==> NobodyDropped(t))
  {
    forall x, y | HasMember(t, x, y) ensures MemberOf(t, y, x) { var listed := HasMember(s, x, y); }
    forall x, y | MemberOf(t, y, x) ensures IsGroup(t, x) { var member := MemberOf(s, y, x); }
    if NobodyDropped(s) {
      forall x, y | MemberOf(t, y, x) ensures HasMember(t, x, y) { var member := MemberOf(s, y, x); }
    }
  }

  lemma AddMemberEnrols(s: State, g: Id, u: Id)
    requires GroupsOk(s) && IsGroup(s, g) && IsUser(s, u)
    ensures var t := AddMember(s, g, u).state; Enrolled(s, t, g, u) && SameParties(s, t) && ListedOnce(t)
  {
    if !HasMember(s, g, u) {
      var s1 := WithMembers(s, g, s[g].partyKind.userObjIds + [u]);
      WithMembersAdded(s, g, u);
      assert IsUser(s1, u) && IsGroup(s1, g);
      if !MemberOf(s1, u, g) { WithGroupIdsAdded(s1, u, g); }
    }
  }

  /**
  addUserId succeeds exactly for a user that does not have the group yet. For any user, even when it reports an error,
  it leaves the membership on both sides, and all others as they were; so it also repairs what removeUser has left.
  */
  lemma AddMemberMeans(s: State, g: Id, u: Id)
    requires GroupsOk(s) && IsGroup(s, g)
    ensures var o := AddMember(s, g, u);
      && (o.ok <==> IsUser(s, u) && !MemberOf(s, u, g))
      && (if IsUser(s, u) then Enrolled(s, o.state, g, u) else o.state == s)
      && GroupsOk(o.state) && (NobodyDropped(s) ==> NobodyDropped(o.state)) && OnlyRosters(s, o.state)
  {
    AddMemberOkIff(s, g, u);
    AddMemberOnly(s, g, u);
    if IsUser(s, u) {
      AddMemberEnrols(s, g, u);
      EnrolledOk(s, AddMember(s, g, u).state, g, u);
    }
  }

  lemma AddMemberOkIff(s: State, g: Id, u: Id)
    requires GroupsOk(s) && IsGroup(s, g)
    ensures AddMember(s, g, u).ok <==> IsUser(s, u) && !MemberOf(s, u, g)
  {
    var listed := HasMember(s, g, u);
    if IsUser(s, u) && !listed {
      var s1 := WithMembers(s, g, s[g].partyKind.userObjIds + [u]);
      assert IsGroup(s1, g) && s1[u] == s[u];
    }
  }

  /** The second update in addGroupUser does nothing. */
  lemma HandlerAddsOnce(s: State, g: Id, u: Id)
    requires IsGroup(s, g)
    ensures AddGroupUser(s, g, u) == AddMember(s, g, u)
  {
    var o := AddMember(s, g, u);
    if o.ok { assert IsUser(o.state, u) && g in o.state[u].partyKind.groupIds; }
  }

  // ----- Removing -----

  /** removeUser succeeds exactly for a user the group lists. It takes the user off the group's list and nothing else. */
  lemma RemoveMemberMeans(s: State, g: Id, u: Id)
    requires GroupsOk(s) && IsGroup(s, g)
    ensures var o := RemoveMember(s, g, u); var t := o.state;
      && (o.ok <==> HasMember(s, g, u)) && (!o.ok ==> t == s)
      && (forall x, y {:trigger HasMember(t, x, y)} :: HasMember(t, x, y) <==> HasMember(s, x, y) && !(o.ok && x == g && y == u))
      && (forall x, y {:trigger MemberOf(t, y, x)} :: MemberOf(t, y, x) <==> MemberOf(s, y, x))
      && GroupsOk(t) && (NobodyDropped(s) ==> (NobodyDropped(t) <==> !o.ok)) && OnlyRosters(s, t)
  {
    var t := RemoveMember(s, g, u).state;
    RosterOnly(s, g, RemoveFrom(u, s[g].partyKind.userObjIds));
    if HasMember(s, g, u) {
      RemoveFromFacts(u, s[g].partyKind.userObjIds);
      WithMembersRemoved(s, g, u);
      forall x, y | HasMember(t, x, y) ensures MemberOf(t, y, x) { assert HasMember(s, x, y) && MemberOf(s, y, x); }
      forall x, y | MemberOf(t, y, x) ensures IsGroup(t, x) { assert MemberOf(s, y, x); }
      assert MemberOf(s, u, g) && MemberOf(t, u, g) && !HasMember(t, g, u);
    }
  }

  lemma WithMembersRemoved(s: State, g: Id, u: Id)
    requires ListedOnce(s) && HasMember(s, g, u)
    ensures var t := WithMembers(s, g, RemoveFrom(u, s[g].partyKind.userObjIds));
      && SameParties(s, t) && ListedOnce(t)
      && (forall x, y {:trigger HasMember(t, x, y)} :: HasMember(t, x, y) <==> HasMember(s, x, y) && !(x == g && y == u))
      && (forall x, y {:trigger MemberOf(t, y, x)} :: MemberOf(t, y, x) <==> MemberOf(s, y, x))
  {
    var t := WithMembers(s, g, RemoveFrom(u, s[g].partyKind.userObjIds));
    RemoveFromFacts(u, s[g].partyKind.userObjIds);
    forall x | IsGroup(t, x) ensures NoDup(t[x].partyKind.userObjIds) { assert IsGroup(s, x); }
    forall x | IsUser(t, x) ensures NoDup(t[x].partyKind.groupIds) { assert IsUser(s, x); }
  }

  // ----- What authorization makes of it -----

  /** Everything that `authorized` looks at is the same. */
  ghost predicate SameRights(s: State, t: State) {
    && SameAccess(s, t)
    && (forall x {:trigger IsUser(t, x)} :: IsUser(t, x) <==> IsUser(s, x))
    && (forall x {:trigger IsUser(t, x)} :: IsUser(t, x) ==> t[x].partyKind.groupIds == s[x].partyKind.groupIds)
    && (forall x {:trigger IsResource(t, x)} :: IsResource(t, x) ==> t[x].parentId == s[x].parentId)
  }

  lemma {:induction false} WalkSame(s: State, t: State, ids: seq<Id>, resourceId: Id, k: nat)
    requires Sized(s) && Sized(t) && SameAccess(s, t) && k < MASK_LENGTH
    ensures WalkEntries(t, ids, resourceId, k) == WalkEntries(s, ids, resourceId, k)
  {
    if ids != [] {
      WalkSame(s, t, ids[1..], resourceId, k);
      assert IsEntry(t, ids[0]) <==> IsEntry(s, ids[0]);
    }
  }

  lemma PartySame(s: State, t: State, p: Id, mask: seq<bool>, resourceId: Id)
    requires Sized(s) && Sized(t) && SameAccess(s, t) && IsParty(t, p) && |mask| == MASK_LENGTH
    ensures IsParty(s, p) && PartyHasAccess(t, p, mask, resourceId) == PartyHasAccess(s, p, mask, resourceId)
  {
    assert HasAcl(t, p) && IsParty(s, p);
    match ActionOf(mask)
    case OneAction(k) => WalkSame(s, t, s[p].acl, resourceId, k);
    case _ =>
  }

  lemma {:induction false} AnyPartySame(s: State, t: State, p: Id, groupIds: seq<Id>, mask: seq<bool>, resourceId: Id)
    requires Sized(s) && Sized(t) && SameRights(s, t) && IsParty(t, p) && IsResource(t, resourceId) && |mask| == MASK_LENGTH
    ensures IsParty(s, p) && IsResource(s, resourceId)
    ensures AnyPartyCanReach(t, p, groupIds, mask, resourceId) == AnyPartyCanReach(s, p, groupIds, mask, resourceId)
    decreases |groupIds|
  {
    var parentId := t[resourceId].parentId;
    PartySame(s, t, p, mask, resourceId);
    PartySame(s, t, p, mask, parentId);
    assert IsResource(t, parentId) <==> IsResource(s, parentId);
    if groupIds != [] {
      assert IsParty(t, groupIds[0]) <==> IsParty(s, groupIds[0]);
      if IsParty(t, groupIds[0]) { AnyPartySame(s, t, groupIds[0], groupIds[1..], mask, resourceId); }
    }
  }

  lemma AuthorizedSame(s: State, t: State, users: map<string, Id>, login: Option<string>, mask: seq<bool>, resourceId: Id)
    requires Sized(s) && Sized(t) && SameRights(s, t) && |mask| == MASK_LENGTH
    ensures Authorized(t, users, login, mask, resourceId) == Authorized(s, users, login, mask, resourceId)
  {
    if login.Some? && login.value in users {
      var u := users[login.value];
      assert IsUser(t, u) <==> IsUser(s, u);
      assert IsResource(t, resourceId) <==> IsResource(s, resourceId);
      if IsUser(t, u) && IsResource(t, resourceId) {
        AnyPartySame(s, t, u, s[u].partyKind.groupIds, mask, resourceId);
      }
    }
  }

  lemma WithMembersRights(s: State, g: Id, ids: seq<Id>)
    requires IsGroup(s, g)
    ensures SameRights(s, WithMembers(s, g, ids)) && (Sized(s) ==> Sized(WithMembers(s, g, ids)))
  {
  }

  /** removeUser changes no answer of `authorized`, for any user, action mask and resource: the user keeps the group's rights. */
  lemma RemovalChangesNoAnswer(s: State, g: Id, u: Id, users: map<string, Id>, login: Option<string>, mask: seq<bool>, r: Id)
    requires Sized(s) && IsGroup(s, g) && |mask| == MASK_LENGTH
    ensures Sized(RemoveMember(s, g, u).state)
    ensures Authorized(RemoveMember(s, g, u).state, users, login, mask, r) == Authorized(s, users, login, mask, r)
  {
    var ids := RemoveFrom(u, s[g].partyKind.userObjIds);
    if u in s[g].partyKind.userObjIds {
      WithMembersRights(s, g, ids);
      AuthorizedSame(s, WithMembers(s, g, ids), users, login, mask, r);
    }
  }

  /** The membership taken off both sides, which no operation does. */
  function Withdrawn(s: State, g: Id, u: Id): State
    requires IsGroup(s, g) && IsUser(s, u)
  {
    WithGroupIds(RemoveMember(s, g, u).state, u, RemoveFrom(g, s[u].partyKind.groupIds))
  }

  /** The group has the right on the resource or its parent, and none of the user's other parties has. */
  ghost predicate OnlyThrough(s: State, u: Id, g: Id, r: Id, k: nat)
    requires IsUser(s, u) && IsResource(s, r)
  {
    RightHereOrAbove(s, g, r, k) && forall p :: p in PartiesOf(s, u) && p != g ==> !RightHereOrAbove(s, p, r, k)
  }

  lemma WithdrawnRights(s: State, g: Id, u: Id)
    requires Linked(s) && Sized(s) && IsGroup(s, g) && IsUser(s, u) && NoDup(s[u].partyKind.groupIds)
    ensures var t := Withdrawn(s, g, u);
      && Linked(t) && Sized(t) && SameAccess(s, t) && IsUser(t, u)
      && (forall x :: x in t[u].partyKind.groupIds <==> x in s[u].partyKind.groupIds && x != g)
      && (forall x {:trigger IsResource(t, x)} :: IsResource(t, x) ==> t[x].parentId == s[x].parentId)
  {
    RemoveFromFacts(g, s[u].partyKind.groupIds);
    var s1 := RemoveMember(s, g, u).state;
    WithMembersRights(s, g, RemoveFrom(u, s[g].partyKind.userObjIds));
    WithGroupIdsRights(s1, u, RemoveFrom(g, s[u].partyKind.groupIds));
    assert SameAccess(s, s1) && IsUser(s1, u);
    AccessTwice(s, s1, Withdrawn(s, g, u));
    SameAccessLinked(s, Withdrawn(s, g, u));
  }

  lemma AccessTwice(s: State, t: State, u: State)
    requires SameAccess(s, t) && SameAccess(t, u)
    ensures SameAccess(s, u)
  {
  }

  lemma WithGroupIdsRights(s: State, u: Id, ids: seq<Id>)
    requires IsUser(s, u)
    ensures var t := WithGroupIds(s, u, ids);
      && SameAccess(s, t) && (Sized(s) ==> Sized(t))
      && (forall x {:trigger IsResource(t, x)} :: IsResource(t, x) ==> t[x].parentId == s[x].parentId)
  {
  }

  lemma RightsSame(s: State, t: State, p: Id, r: Id, k: nat)
    requires SameAccess(s, t) && IsResource(s, r) && IsResource(t, r) && t[r].parentId == s[r].parentId
    ensures RightHereOrAbove(t, p, r, k) <==> RightHereOrAbove(s, p, r, k)
  {
    RightSame(s, t, p, r, k);
    RightSame(s, t, p, s[r].parentId, k);
  }

  lemma RightSame(s: State, t: State, p: Id, r: Id, k: nat)
    requires SameAccess(s, t)
    ensures Right(t, p, r, k) <==> Right(s, p, r, k)
  {
    forall e ensures Joins(t, e, p, r) <==> Joins(s, e, p, r) { assert IsEntry(t, e) <==> IsEntry(s, e); }
    forall e | Joins(s, e, p, r) ensures t[e] == s[e] { assert IsEntry(t, e); }
    if Right(s, p, r, k) {
      var e :| Joins(s, e, p, r) && k < |s[e].mask| && s[e].mask[k];
      assert Joins(t, e, p, r);
    }
  }

  /** The withdrawal leaves the user's other parties, and every id that authorization looks up, as they were. */
  lemma WithdrawnRefs(s: State, g: Id, u: Id, r: Id)
    requires Linked(s) && Sized(s) && GroupsOk(s) && HasMember(s, g, u) && RefsLive(s, u, r)
    ensures var t := Withdrawn(s, g, u);
      && Linked(t) && Sized(t) && SameAccess(s, t) && RefsLive(t, u, r) && t[r].parentId == s[r].parentId
      && forall p :: p in PartiesOf(t, u) <==> p in PartiesOf(s, u) && p != g
  {
    var t := Withdrawn(s, g, u);
    assert MemberOf(s, u, g) && g != u;
    WithdrawnRights(s, g, u);
    assert IsResource(t, r) && IsResource(t, s[r].parentId) == IsResource(s, s[r].parentId);
    forall i | 0 <= i < |t[u].partyKind.groupIds| ensures IsParty(t, t[u].partyKind.groupIds[i]) {
      var x := t[u].partyKind.groupIds[i];
      assert x in t[u].partyKind.groupIds && IsParty(s, x);
    }
  }

  /**
  So removeUser leaves the user an access that taking the membership off both sides would end, exactly when the group
  alone gives the user the right.
  */
  lemma RemovalLeavesAccessIff(s: State, g: Id, u: Id, users: map<string, Id>, login: string, r: Id, k: nat)
    requires Linked(s) && Sized(s) && GroupsOk(s) && HasMember(s, g, u) && k < MASK_LENGTH
    requires login in users && users[login] == u && RefsLive(s, u, r)
    ensures IsUser(s, u) && Sized(RemoveMember(s, g, u).state) && Sized(Withdrawn(s, g, u))
    ensures var left := Authorized(RemoveMember(s, g, u).state, users, Some(login), Single(k), r);
      var due := Authorized(Withdrawn(s, g, u), users, Some(login), Single(k), r);
      && (left != due <==> OnlyThrough(s, u, g, r, k)) && (left != due ==> left == Allowed && due == Refused)
  {
    var t := Withdrawn(s, g, u);
    RemovalChangesNoAnswer(s, g, u, users, Some(login), Single(k), r);
    WithdrawnRefs(s, g, u, r);
    AuthorizedIff(s, users, login, r, k);
    AuthorizedIff(t, users, login, r, k);
    forall p ensures RightHereOrAbove(t, p, r, k) <==> RightHereOrAbove(s, p, r, k) { RightsSame(s, t, p, r, k); }
    assert MemberOf(s, u, g);
  }
}
