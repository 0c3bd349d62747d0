/** The decision of auth.go: may this user perform this action on this resource? */
module Authorization {
  import opened Basics
  import opened ObjectStore
  import opened Access

  /** `Failure` stands for a non-nil error. */
  datatype Decision = Allowed | Refused | Failure

  /** Which field of an action mask is set. */
  datatype Action = NoAction | OneAction(k: nat) | TooMany

  function ActionFrom(mask: seq<bool>, i: nat, seen: Action): Action
    requires i <= |mask|
    decreases |mask| - i
  {
    if i == |mask| then seen
    else if !mask[i] then ActionFrom(mask, i + 1, seen)
    else if seen.NoAction? then ActionFrom(mask, i + 1, OneAction(i))
    else TooMany
  }

  /** The loop of partyHasAccess over a party's entries. */
  function WalkEntries(s: State, ids: seq<Id>, resourceId: Id, k: nat): Decision
    requires Sized(s) && k < MASK_LENGTH
  {
    if ids == [] then Refused
    else if !IsEntry(s, ids[0]) then Failure
    else if s[ids[0]].resourceId == resourceId && s[ids[0]].mask[k] then Allowed
    else WalkEntries(s, ids[1..], resourceId, k)
  }

  /** The action says which of the first `n` fields are set: none, just one, or at least two. */
  ghost predicate Describes(a: Action, mask: seq<bool>, n: nat)
    requires n <= |mask|
  {
    match a
    case NoAction => forall i :: 0 <= i < n ==> !mask[i]
    case OneAction(k) => k < n && mask[k] && forall i :: 0 <= i < n && i != k ==> !mask[i]
    case TooMany => exists i, j :: 0 <= i < j < n && mask[i] && mask[j]
  }

  lemma {:induction false} ActionFromMeans(mask: seq<bool>, i: nat, seen: Action)
    requires i <= |mask| && Describes(seen, mask, i) && !seen.TooMany?
    ensures Describes(ActionFrom(mask, i, seen), mask, |mask|)
    decreases |mask| - i
  {
    if i < |mask| {
      if !mask[i] {
        ActionFromMeans(mask, i + 1, seen);
      } else if seen.NoAction? {
        ActionFromMeans(mask, i + 1, OneAction(i));
      } else {
        assert mask[seen.k] && mask[i];
      }
    }
  }

  /** The one field that is set, or that there is none, or more than one. */
  function ActionOf(mask: seq<bool>): (a: Action)
    ensures a.NoAction? <==> forall i :: 0 <= i < |mask| ==> !mask[i]
    ensures a.TooMany? <==> exists i, j :: 0 <= i < j < |mask| && mask[i] && mask[j]
    ensures a.OneAction? ==> a.k < |mask| && mask[a.k] && forall i :: 0 <= i < |mask| && i != a.k ==> !mask[i]
  {
    ActionFromMeans(mask, 0, NoAction);
    ActionFrom(mask, 0, NoAction)
  }

  function PartyHasAccess(s: State, partyId: Id, actionMask: seq<bool>, resourceId: Id): Decision
    requires Sized(s) && IsParty(s, partyId) && |actionMask| == MASK_LENGTH
  {
    match ActionOf(actionMask)
    case TooMany => Failure
    case NoAction => Refused
    case OneAction(k) => WalkEntries(s, s[partyId].acl, resourceId, k)
  }

  /** One turn of the loop of authorized: the resource, then its parent if it has one. */
  function PartyCanReach(s: State, partyId: Id, actionMask: seq<bool>, resourceId: Id): Decision
    requires Sized(s) && IsParty(s, partyId) && IsResource(s, resourceId) && |actionMask| == MASK_LENGTH
  {
    var direct := PartyHasAccess(s, partyId, actionMask, resourceId);
    var parentId := s[resourceId].parentId;
    if direct != Refused || parentId == NO_ID then direct
    else if !IsResource(s, parentId) then Failure
    else PartyHasAccess(s, partyId, actionMask, parentId)
  }

  /** The loop of authorized: the party, then each of the remaining groups. */
  function AnyPartyCanReach(s: State, partyId: Id, groupIds: seq<Id>, actionMask: seq<bool>, resourceId: Id): Decision
    requires Sized(s) && IsParty(s, partyId) && IsResource(s, resourceId) && |actionMask| == MASK_LENGTH
    decreases |groupIds|
  {
    var d := PartyCanReach(s, partyId, actionMask, resourceId);
    if d != Refused || groupIds == [] then d
    else if !IsParty(s, groupIds[0]) then Failure
    else AnyPartyCanReach(s, groupIds[0], groupIds[1..], actionMask, resourceId)
  }

  /** authorized: `users` finds the User object of a login name; `login` is None when there is no session token. */
  function Authorized(s: State, users: map<string, Id>, login: Option<string>, actionMask: seq<bool>,
                      resourceId: Id): Decision
    requires Sized(s) && |actionMask| == MASK_LENGTH
  {
    if login.None? || login.value !in users || !IsUser(s, users[login.value]) then Failure
    else
      var userId := users[login.value];
      if userId == resourceId then Allowed
      else if ActionOf(actionMask).TooMany? || !IsResource(s, resourceId) then Failure
      else AnyPartyCanReach(s, userId, s[userId].partyKind.groupIds, actionMask, resourceId)
  }

  // ----- What the decision means -----

  /** Some entry gives the party action `k` on the resource. */
  ghost predicate Right(s: State, partyId: Id, resourceId: Id, k: nat) {
    exists e :: Joins(s, e, partyId, resourceId) && k < |s[e].mask| && s[e].mask[k]
  }

  /** The party has the right on the resource or on its immediate parent. */
  ghost predicate RightHereOrAbove(s: State, partyId: Id, resourceId: Id, k: nat)
    requires IsResource(s, resourceId)
  {
    Right(s, partyId, resourceId, k)
    || (s[resourceId].parentId != NO_ID && Right(s, partyId, s[resourceId].parentId, k))
  }

  /** The same question asked of the resource's own list. */
  ghost predicate ListGrants(s: State, resourceId: Id, parties: set<Id>, k: nat)
    requires IsResource(s, resourceId)
  {
    exists i :: 0 <= i < |s[resourceId].acl| && IsEntry(s, s[resourceId].acl[i])
      && s[s[resourceId].acl[i]].partyId in parties
      && k < |s[s[resourceId].acl[i]].mask| && s[s[resourceId].acl[i]].mask[k]
  }

  /** The mask with just action `k` set. */
  function Single(k: nat): (m: seq<bool>)
    requires k < MASK_LENGTH
    ensures |m| == MASK_LENGTH
  {
    seq(MASK_LENGTH, i => i == k)
  }

  /** The ids a user and the resource refer to are live. */
  ghost predicate RefsLive(s: State, userId: Id, resourceId: Id) {
    && IsUser(s, userId) && IsResource(s, resourceId)
    && (s[resourceId].parentId != NO_ID ==> IsResource(s, s[resourceId].parentId))
    && (forall i :: 0 <= i < |s[userId].partyKind.groupIds| ==> IsParty(s, s[userId].partyKind.groupIds[i]))
  }

  /** The user and its groups. */
  function PartiesOf(s: State, userId: Id): set<Id>
    requires IsUser(s, userId)
  {
    {userId} + set g | g in s[userId].partyKind.groupIds
  }
}
