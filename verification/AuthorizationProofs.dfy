/** The decision made by walking the parties' lists is the one the permissions call for. */
module AuthorizationProofs {
  import opened Basics
  import opened ObjectStore
  import opened Access
  import opened AccessProofs
  import opened Authorization

  lemma SingleAction(k: nat)
    requires k < MASK_LENGTH
    ensures ActionOf(Single(k)) == OneAction(k)
  {
    assert Single(k)[k];
    assert forall i :: 0 <= i < MASK_LENGTH && i != k ==> !Single(k)[i];
  }

  lemma {:induction false} WalkMeans(s: State, ids: seq<Id>, resourceId: Id, k: nat)
    requires Sized(s) && k < MASK_LENGTH && forall e :: e in ids ==> IsEntry(s, e)
    ensures WalkEntries(s, ids, resourceId, k) ==
      if exists e :: e in ids && IsEntry(s, e) && s[e].resourceId == resourceId && s[e].mask[k] then Allowed else Refused
  {
    if ids != [] {
      WalkMeans(s, ids[1..], resourceId, k);
      assert forall e :: e in ids <==> e == ids[0] || e in ids[1..];
      assert IsEntry(s, ids[0]);
    }
  }

  lemma PartyHasAccessMeans(s: State, partyId: Id, resourceId: Id, k: nat)
    requires Linked(s) && Sized(s) && IsParty(s, partyId) && k < MASK_LENGTH
    ensures PartyHasAccess(s, partyId, Single(k), resourceId) == if Right(s, partyId, resourceId, k) then Allowed else Refused
  {
    SingleAction(k);
    var ids := s[partyId].acl;
    forall e | e in ids ensures IsEntry(s, e) && s[e].partyId == partyId { assert InAcl(s, partyId, e); }
    WalkMeans(s, ids, resourceId, k);
    if e :| e in ids && IsEntry(s, e) && s[e].resourceId == resourceId && s[e].mask[k] {
      assert Joins(s, e, partyId, resourceId);
    }
    if e :| Joins(s, e, partyId, resourceId) && k < |s[e].mask| && s[e].mask[k] {
      assert InAcl(s, partyId, e);
    }
  }

  lemma {:induction false} AnyPartyMeans(s: State, partyId: Id, groupIds: seq<Id>, resourceId: Id, k: nat)
    requires Linked(s) && Sized(s) && IsParty(s, partyId) && k < MASK_LENGTH
    requires forall i :: 0 <= i < |groupIds| ==> IsParty(s, groupIds[i])
    requires IsResource(s, resourceId)
    requires s[resourceId].parentId != NO_ID ==> IsResource(s, s[resourceId].parentId)
    ensures AnyPartyCanReach(s, partyId, groupIds, Single(k), resourceId) ==
      if exists p :: (p == partyId || p in groupIds) && RightHereOrAbove(s, p, resourceId, k) then Allowed else Refused
    decreases |groupIds|
  {
    PartyHasAccessMeans(s, partyId, resourceId, k);
    if s[resourceId].parentId != NO_ID { PartyHasAccessMeans(s, partyId, s[resourceId].parentId, k); }
    assert PartyCanReach(s, partyId, Single(k), resourceId)
        == if RightHereOrAbove(s, partyId, resourceId, k) then Allowed else Refused;
    if groupIds != [] && !RightHereOrAbove(s, partyId, resourceId, k) {
      AnyPartyMeans(s, groupIds[0], groupIds[1..], resourceId, k);
      assert forall p :: p in groupIds <==> p == groupIds[0] || p in groupIds[1..];
      if p :| (p == partyId || p in groupIds) && RightHereOrAbove(s, p, resourceId, k) {
        assert p == groupIds[0] || p in groupIds[1..];
      }
    }
  }

  /**
  authorized, asked for one action, answers yes exactly when the resource is the user's own object, or the user or
  one of its groups has an entry with that action on the resource or on its immediate parent. It never fails.
  */
  lemma AuthorizedIff(s: State, users: map<string, Id>, login: string, resourceId: Id, k: nat)
    requires Linked(s) && Sized(s) && k < MASK_LENGTH && login in users && IsUser(s, users[login])
    requires users[login] != resourceId ==> RefsLive(s, users[login], resourceId)
    ensures Authorized(s, users, Some(login), Single(k), resourceId) ==
      if users[login] == resourceId || exists p :: p in PartiesOf(s, users[login]) && RightHereOrAbove(s, p, resourceId, k)
      then Allowed else Refused
  {
    var userId := users[login];
    if userId != resourceId {
      SingleAction(k);
      AnyPartyMeans(s, userId, s[userId].partyKind.groupIds, resourceId, k);
    }
  }

  // ----- The decision for every mask, every id and every login -----

  /** Only the action that the mask stands for matters. */
  lemma {:induction false} SameAction(s: State, p: Id, groupIds: seq<Id>, a: seq<bool>, b: seq<bool>, resourceId: Id)
    requires Sized(s) && IsParty(s, p) && IsResource(s, resourceId) && |a| == |b| == MASK_LENGTH && ActionOf(a) == ActionOf(b)
    ensures AnyPartyCanReach(s, p, groupIds, a, resourceId) == AnyPartyCanReach(s, p, groupIds, b, resourceId)
    decreases |groupIds|
  {
    if groupIds != [] && IsParty(s, groupIds[0]) { SameAction(s, groupIds[0], groupIds[1..], a, b, resourceId); }
  }

  /** A mask without a field is refused. */
  lemma {:induction false} NoActionRefused(s: State, p: Id, groupIds: seq<Id>, mask: seq<bool>, resourceId: Id)
    requires Sized(s) && IsParty(s, p) && IsResource(s, resourceId) && |mask| == MASK_LENGTH && ActionOf(mask).NoAction?
    requires s[resourceId].parentId != NO_ID ==> IsResource(s, s[resourceId].parentId)
    requires forall i :: 0 <= i < |groupIds| ==> IsParty(s, groupIds[i])
    ensures AnyPartyCanReach(s, p, groupIds, mask, resourceId) == Refused
    decreases |groupIds|
  {
    if groupIds != [] { NoActionRefused(s, groupIds[0], groupIds[1..], mask, resourceId); }
  }

  /** The groups of the user are live, and so is the parent of the resource, if there is a resource and it has one. */
  ghost predicate GroupsAndParentLive(s: State, userId: Id, resourceId: Id)
    requires IsUser(s, userId)
  {
    && (forall i :: 0 <= i < |s[userId].partyKind.groupIds| ==> IsParty(s, s[userId].partyKind.groupIds[i]))
    && (IsResource(s, resourceId) && s[resourceId].parentId != NO_ID ==> IsResource(s, s[resourceId].parentId))
  }

  /** The user or one of its groups has a right that the mask names, on the resource or its immediate parent. */
  ghost predicate SomePartyMay(s: State, userId: Id, mask: seq<bool>, resourceId: Id)
    requires IsUser(s, userId) && IsResource(s, resourceId)
  {
    exists k, p :: 0 <= k < |mask| && mask[k] && p in PartiesOf(s, userId) && RightHereOrAbove(s, p, resourceId, k)
  }

  /**
  authorized for any request: an error for a login without a user; yes for the user's own object, whatever the mask; an
  error for a mask with two fields or an id that no resource has; else yes exactly when the mask has a field and a party
  of the user has that right on the resource or its immediate parent.
  */
  lemma AuthorizedMeans(s: State, users: map<string, Id>, login: Option<string>, mask: seq<bool>, resourceId: Id)
    requires Linked(s) && Sized(s) && |mask| == MASK_LENGTH
    requires login.Some? && login.value in users && IsUser(s, users[login.value]) ==>
      GroupsAndParentLive(s, users[login.value], resourceId)
    ensures Authorized(s, users, login, mask, resourceId) ==
      if login.None? || login.value !in users || !IsUser(s, users[login.value]) then Failure
      else if users[login.value] == resourceId then Allowed
      else if (exists i, j :: 0 <= i < j < |mask| && mask[i] && mask[j]) || !IsResource(s, resourceId) then Failure
      else if SomePartyMay(s, users[login.value], mask, resourceId) then Allowed
      else Refused
  {
    if login.Some? && login.value in users && IsUser(s, users[login.value]) && users[login.value] != resourceId
       && IsResource(s, resourceId) {
      var userId := users[login.value];
      match ActionOf(mask)
      case NoAction => NoActionRefused(s, userId, s[userId].partyKind.groupIds, mask, resourceId);
      case OneAction(k) =>
        SingleAction(k);
        SameAction(s, userId, s[userId].partyKind.groupIds, mask, Single(k), resourceId);
        AuthorizedIff(s, users, login.value, resourceId, k);
      case TooMany =>
    }
  }

  /** With a group that is not live, the parties before it decide, and else there is an error. */
  lemma {:induction false} DeadGroupDecides(s: State, partyId: Id, groupIds: seq<Id>, i: nat, resourceId: Id, k: nat)
    requires Linked(s) && Sized(s) && IsParty(s, partyId) && k < MASK_LENGTH && IsResource(s, resourceId)
    requires s[resourceId].parentId != NO_ID ==> IsResource(s, s[resourceId].parentId)
    requires i < |groupIds| && !IsParty(s, groupIds[i]) && forall j :: 0 <= j < i ==> IsParty(s, groupIds[j])
    ensures AnyPartyCanReach(s, partyId, groupIds, Single(k), resourceId) ==
      if exists p :: (p == partyId || p in groupIds[..i]) && RightHereOrAbove(s, p, resourceId, k) then Allowed else Failure
    decreases |groupIds|
  {
    AnyPartyMeans(s, partyId, [], resourceId, k);
    if !RightHereOrAbove(s, partyId, resourceId, k) && i > 0 {
      assert groupIds[..i] == [groupIds[0]] + groupIds[1..][..i - 1];
      DeadGroupDecides(s, groupIds[0], groupIds[1..], i - 1, resourceId, k);
    }
  }

  /** With a parent that is not live, only the user's own right on the resource itself helps, and else there is an error. */
  lemma DeadParentDecides(s: State, partyId: Id, groupIds: seq<Id>, resourceId: Id, k: nat)
    requires Linked(s) && Sized(s) && IsParty(s, partyId) && k < MASK_LENGTH && IsResource(s, resourceId)
    requires s[resourceId].parentId != NO_ID && !IsResource(s, s[resourceId].parentId)
    ensures AnyPartyCanReach(s, partyId, groupIds, Single(k), resourceId) ==
      if Right(s, partyId, resourceId, k) then Allowed else Failure
  {
    PartyHasAccessMeans(s, partyId, resourceId, k);
  }

  lemma ListGrantsIff(s: State, resourceId: Id, parties: set<Id>, k: nat)
    requires Linked(s) && IsResource(s, resourceId)
    ensures ListGrants(s, resourceId, parties, k) <==> exists p :: p in parties && Right(s, p, resourceId, k)
  {
    var ids := s[resourceId].acl;
    if ListGrants(s, resourceId, parties, k) {
      var i :| 0 <= i < |ids| && IsEntry(s, ids[i]) && s[ids[i]].partyId in parties
            && k < |s[ids[i]].mask| && s[ids[i]].mask[k];
      assert InAcl(s, resourceId, ids[i]);
      assert Joins(s, ids[i], s[ids[i]].partyId, resourceId);
      assert Right(s, s[ids[i]].partyId, resourceId, k);
    }
    if p :| p in parties && Right(s, p, resourceId, k) {
      var e :| Joins(s, e, p, resourceId) && k < |s[e].mask| && s[e].mask[k];
      assert InAcl(s, resourceId, e);
      var i :| 0 <= i < |ids| && ids[i] == e;
    }
  }

  /** Asking the lists of the resource and of its parent gives the same answer as walking the parties' lists. */
  lemma AuthorizedFromResourceSide(s: State, users: map<string, Id>, login: string, resourceId: Id, k: nat)
    requires Linked(s) && Sized(s) && k < MASK_LENGTH
    requires login in users && RefsLive(s, users[login], resourceId)
    ensures var parties := PartiesOf(s, users[login]);
      Authorized(s, users, Some(login), Single(k), resourceId) ==
      if ListGrants(s, resourceId, parties, k)
         || (s[resourceId].parentId != NO_ID && ListGrants(s, s[resourceId].parentId, parties, k))
      then Allowed else Refused
  {
    var parties := PartiesOf(s, users[login]);
    AuthorizedIff(s, users, login, resourceId, k);
    ListGrantsIff(s, resourceId, parties, k);
    if s[resourceId].parentId != NO_ID { ListGrantsIff(s, s[resourceId].parentId, parties, k); }
  }

  // ----- The decision and the access matrix -----

  /** The matrix grants the party action `k` on the resource. */
  predicate Grants(m: Matrix, partyId: Id, resourceId: Id, k: nat) {
    (partyId, resourceId) in m && k < |m[(partyId, resourceId)]| && m[(partyId, resourceId)][k]
  }

  lemma RightIsGrant(s: State, partyId: Id, resourceId: Id, k: nat)
    requires OneEntryPerPair(s)
    ensures Right(s, partyId, resourceId, k) <==> Grants(MatrixOf(s), partyId, resourceId, k)
  {
    MatrixFacts(s);
    if (partyId, resourceId) in MatrixOf(s) {
      var e :| Joins(s, e, partyId, resourceId);
      assert IsEntry(s, e);
      forall x | Joins(s, x, partyId, resourceId) ensures x == e { assert IsEntry(s, x) && SamePair(s[x], s[e]); }
    } else {
      forall x ensures !Joins(s, x, partyId, resourceId) { var entry := IsEntry(s, x); }
    }
  }

  /** partyHasAccess answers what the access matrix says. */
  lemma DecisionIsGrant(s: State, partyId: Id, resourceId: Id, k: nat)
    requires Consistent(s) && IsParty(s, partyId) && k < MASK_LENGTH
    ensures PartyHasAccess(s, partyId, Single(k), resourceId)
         == if Grants(MatrixOf(s), partyId, resourceId, k) then Allowed else Refused
  {
    PartyHasAccessMeans(s, partyId, resourceId, k);
    RightIsGrant(s, partyId, resourceId, k);
  }

  /** After setAccess the party may do exactly what the mask says; every other question is answered as before. */
  lemma SetAccessDecides(s: State, resourceId: Id, partyId: Id, mask: seq<bool>, newId: Id, p: Id, r: Id, k: nat)
    requires Consistent(s) && IsResource(s, resourceId) && IsParty(s, partyId) && IsParty(s, p)
    requires newId !in s && |mask| == MASK_LENGTH && k < MASK_LENGTH
    ensures var t := SetAccess(s, resourceId, partyId, mask, newId).state;
      && Consistent(t) && IsParty(t, p)
      && PartyHasAccess(t, p, Single(k), r) ==
        if (p, r) == (partyId, resourceId) then (if mask[k] then Allowed else Refused) else PartyHasAccess(s, p, Single(k), r)
  {
    SetAccessOnMatrix(s, resourceId, partyId, mask, newId);
    FindEntryExact(s, partyId, resourceId);
    var t := SetAccess(s, resourceId, partyId, mask, newId).state;
    assert IsParty(t, p);
    DecisionIsGrant(s, p, r, k);
    DecisionIsGrant(t, p, r, k);
  }

  /**
  After addAccess, with masks that are in no two entries, the party may do what it could do before and what the mask
  says; every other question is answered as before.
  */
  lemma AddAccessDecides<Cell(!new)>(s: State, cells: map<Id, Cell>, resourceId: Id, partyId: Id, mask: seq<bool>,
                                     newId: Id, p: Id, r: Id, k: nat)
    requires Consistent(s) && CellsMatch(s, cells) && (forall e :: IsEntry(s, e) ==> Unshared(cells, e))
    requires IsResource(s, resourceId) && IsParty(s, partyId) && IsParty(s, p)
    requires newId !in s && |mask| == MASK_LENGTH && k < MASK_LENGTH
    ensures var t := AddAccess(s, cells, resourceId, partyId, mask, newId).state; var before := PartyHasAccess(s, p, Single(k), r);
      && Consistent(t) && IsParty(t, p)
      && PartyHasAccess(t, p, Single(k), r) == if (p, r) == (partyId, resourceId) && mask[k] then Allowed else before
  {
    var t := AddAccess(s, cells, resourceId, partyId, mask, newId).state;
    AddAccessOnPair(s, cells, resourceId, partyId, mask, newId);
    AddAccessParties(s, cells, resourceId, partyId, mask, newId, p);
    GrantsMore(MatrixOf(s), MatrixOf(t), partyId, resourceId, mask, p, r, k);
    DecisionIsGrant(s, p, r, k);
    DecisionIsGrant(t, p, r, k);
  }

  /** addAccess deletes no party. */
  lemma AddAccessParties<Cell>(s: State, cells: map<Id, Cell>, resourceId: Id, partyId: Id, mask: seq<bool>, newId: Id, p: Id)
    requires Sized(s) && IsParty(s, partyId) && IsParty(s, p) && newId !in s && |mask| == MASK_LENGTH
    ensures IsParty(AddAccess(s, cells, resourceId, partyId, mask, newId).state, p)
  {
  }

  lemma AddAccessOnPair<Cell(!new)>(s: State, cells: map<Id, Cell>, resourceId: Id, partyId: Id, mask: seq<bool>, newId: Id)
    requires Consistent(s) && CellsMatch(s, cells) && (forall e :: IsEntry(s, e) ==> Unshared(cells, e))
    requires IsResource(s, resourceId) && IsParty(s, partyId) && newId !in s && |mask| == MASK_LENGTH
    ensures var t := AddAccess(s, cells, resourceId, partyId, mask, newId).state;
      Consistent(t) && MatrixOf(t) == MatrixAdd(MatrixOf(s), partyId, resourceId, mask)
      && ((partyId, resourceId) in MatrixOf(s) ==> |MatrixOf(s)[(partyId, resourceId)]| == MASK_LENGTH)
  {
    FindEntryExact(s, partyId, resourceId);
    MatrixFacts(s);
    match FindEntry(s, s[partyId].acl, resourceId, false) {
      case Found(e) => AddAccessOnMatrixIff(s, cells, mask, newId, e);
      case Absent => AddAccessCreates(s, cells, resourceId, partyId, mask, newId);
    }
  }

  lemma GrantsMore(m: Matrix, n: Matrix, partyId: Id, resourceId: Id, mask: seq<bool>, p: Id, r: Id, k: nat)
    requires n == MatrixAdd(m, partyId, resourceId, mask) && |mask| == MASK_LENGTH && k < MASK_LENGTH
    requires (partyId, resourceId) in m ==> |m[(partyId, resourceId)]| == MASK_LENGTH
    ensures Grants(n, p, r, k) <==> ((p, r) == (partyId, resourceId) && mask[k]) || Grants(m, p, r, k)
  {
  }

  /** After deleteAccess the party may do nothing on the resource; every other question is answered as before. */
  lemma DeleteAccessDecides(s: State, resourceId: Id, partyId: Id, p: Id, r: Id, k: nat)
    requires Consistent(s) && IsResource(s, resourceId) && IsParty(s, partyId) && IsParty(s, p) && k < MASK_LENGTH
    ensures var t := DeleteAccess(s, resourceId, partyId).state;
      && Consistent(t) && IsParty(t, p)
      && PartyHasAccess(t, p, Single(k), r) ==
        if (p, r) == (partyId, resourceId) then Refused else PartyHasAccess(s, p, Single(k), r)
  {
    var t := DeleteAccess(s, resourceId, partyId).state;
    DeleteAccessOnMatrix(s, resourceId, partyId);
    DeletedParty(s, resourceId, partyId, s[resourceId].acl, 0, p);
    DecisionAfterRemoval(s, t, partyId, resourceId, p, r, k);
  }

  lemma DecisionAfterRemoval(s: State, t: State, partyId: Id, resourceId: Id, p: Id, r: Id, k: nat)
    requires Consistent(s) && Consistent(t) && IsParty(s, p) && IsParty(t, p) && k < MASK_LENGTH
    requires MatrixOf(t) == MatrixOf(s) - {(partyId, resourceId)}
    ensures PartyHasAccess(t, p, Single(k), r) ==
      if (p, r) == (partyId, resourceId) then Refused else PartyHasAccess(s, p, Single(k), r)
  {
    DecisionIsGrant(s, p, r, k);
    DecisionIsGrant(t, p, r, k);
    GrantsLess(MatrixOf(s), partyId, resourceId, p, r, k);
  }

  lemma GrantsLess(m: Matrix, partyId: Id, resourceId: Id, p: Id, r: Id, k: nat)
    ensures Grants(m - {(partyId, resourceId)}, p, r, k) <==> Grants(m, p, r, k) && (p, r) != (partyId, resourceId)
  {
  }

  /** deleteAccess deletes no party. */
  lemma {:induction false} DeletedParty(s: State, resourceId: Id, partyId: Id, ids: seq<Id>, i: nat, p: Id)
    requires IsResource(s, resourceId) && IsParty(s, partyId) && i <= |ids| && IsParty(s, p)
    ensures IsParty(DeleteAccessFrom(s, resourceId, partyId, ids, i).state, p)
    decreases |ids| - i
  {
    if i < |ids| {
      var o := DeleteAccessTurn(s, resourceId, partyId, ids[i], i);
      assert IsParty(o.state, p);
      if o.ok { DeletedParty(o.state, resourceId, partyId, ids, i + 1, p); }
    }
  }
}
