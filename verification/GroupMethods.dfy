/** The group operations on the objects of the store; each does to the records what `GroupMembership` says. */
module GroupMethods {
  import opened Basics
  import opened ObjectStore
  import opened Access
  import opened MembershipMethods
  import GroupMembership

  method GetGroup(db: InMemClient, id: Id) returns (r: Result<Party>)
    requires db.Valid()
    ensures r.Ok? <==> IsGroup(db.state, id)
    ensures r.Ok? ==> db.LiveParty(r.value) && r.value.id == id && db.state[id] == r.value.View()
  {
    r := db.GetParty(id);
    if r.Ok? && !r.value.kind.GroupKind? { r := Err; }
  }

  /** A live party and its record. */
  lemma PartyRecord(db: InMemClient, p: Party)
    requires db.Valid() && db.LiveParty(p)
    ensures IsParty(db.state, p.id) && db.state[p.id] == p.View()
  {
    assert db.objects[p.id].party == p;
  }

  /** The search loop of hasUserWithId, hasGroupWithId and removeUser: the position of the id, or the length of the list. */
  method Find(ids: seq<Id>, id: Id) returns (i: nat)
    ensures i <= |ids| && (i < |ids| <==> id in ids) && (i < |ids| ==> ids[i] == id)
    ensures forall j :: 0 <= j < i ==> ids[j] != id
  {
    i := 0;
    while i < |ids|
      invariant 0 <= i <= |ids| && forall j :: 0 <= j < i ==> ids[j] != id
    {
      if ids[i] == id { return; }
      i := i + 1;
    }
  }

  /** The first occurrence, taken out by position. */
  lemma {:induction false} FirstByPosition(ids: seq<Id>, id: Id, i: nat)
    requires i < |ids| && ids[i] == id && forall j :: 0 <= j < i ==> ids[j] != id
    ensures ids[..i] + ids[i + 1..] == RemoveFrom(id, ids)
  {
    if i == 0 {
      assert ids[..0] + ids[1..] == ids[1..];
    } else {
      forall j | 0 <= j < i - 1 ensures ids[1..][j] != id { assert ids[1..][j] == ids[j + 1]; }
      FirstByPosition(ids[1..], id, i - 1);
      assert ids[..i] + ids[i + 1..] == [ids[0]] + (ids[1..][..i - 1] + ids[1..][i..]);
    }
  }

  method HasUserWithId(db: InMemClient, group: Party, userObjId: Id) returns (b: bool)
    requires db.Valid() && db.LiveParty(group) && group.kind.GroupKind?
    ensures b <==> IsUser(db.state, userObjId) && userObjId in group.kind.userObjIds
  {
    var user := GetUser(db, userObjId);
    if user.Err? { return false; }
    var i := Find(group.kind.userObjIds, userObjId);
    b := i < |group.kind.userObjIds|;
  }

  method HasGroupWithId(db: InMemClient, user: Party, groupId: Id) returns (b: bool)
    requires db.Valid() && db.LiveParty(user) && user.kind.UserKind?
    ensures b <==> IsGroup(db.state, groupId) && groupId in user.kind.groupIds
  {
    var group := GetGroup(db, groupId);
    if group.Err? { return false; }
    var i := Find(user.kind.groupIds, groupId);
    b := i < |user.kind.groupIds|;
  }

  method AddGroupIdDeferredUpdate(db: InMemClient, user: Party, groupId: Id) returns (ok: bool)
    requires db.Valid() && db.LiveParty(user) && user.kind.UserKind?
    modifies db`state, user`kind
    ensures db.Valid() && IsUser(old(db.state), user.id)
    ensures Outcome(db.state, ok) == GroupMembership.AddGroupId(old(db.state), user.id, groupId)
  {
    PartyRecord(db, user);
    var has := HasGroupWithId(db, user, groupId);
    if has { return false; }
    var group := GetGroup(db, groupId);
    if group.Err? { return false; }
    db.SetPartyKind(user, UserKind(user.kind.userId, user.kind.groupIds + [groupId]));
    ok := true;
  }

  /** group.addUserId */
  method AddUserId(db: InMemClient, group: Party, userObjId: Id) returns (ok: bool)
    requires db.Valid() && db.LiveParty(group) && group.kind.GroupKind?
    modifies db`state, db.Repr
    ensures db.Valid() && db.objects == old(db.objects) && db.Repr == old(db.Repr) && IsGroup(old(db.state), group.id)
    ensures Outcome(db.state, ok) == GroupMembership.AddMember(old(db.state), group.id, userObjId)
  {
    PartyRecord(db, group);
    var has := HasUserWithId(db, group, userObjId);
    if has { return false; }
    var user := GetUser(db, userObjId);
    if user.Err? { return false; }
    db.SetPartyKind(group, GroupKind(group.kind.userObjIds + [userObjId]));
    PartyRecord(db, user.value);
    ok := AddGroupIdDeferredUpdate(db, user.value, group.id);
  }

  method RemoveUser(db: InMemClient, group: Party, user: Party) returns (ok: bool)
    requires db.Valid() && db.LiveParty(group) && group.kind.GroupKind?
    modifies db`state, group`kind
    ensures db.Valid() && IsGroup(old(db.state), group.id)
    ensures Outcome(db.state, ok) == GroupMembership.RemoveMember(old(db.state), group.id, user.id)
  {
    PartyRecord(db, group);
    var ids := group.kind.userObjIds;
    var i := Find(ids, user.id);
    if i == |ids| { return false; }
    FirstByPosition(ids, user.id, i);
    db.SetPartyKind(group, GroupKind(ids[..i] + ids[i + 1..]));
    ok := true;
  }

  /** The handler addGroupUser, after the caller has been authorized. */
  method AddGroupUser(db: InMemClient, groupId: Id, userObjId: Id) returns (ok: bool)
    requires db.Valid()
    modifies db`state, db.Repr
    ensures db.Valid()
    ensures Outcome(db.state, ok) == GroupMembership.AddGroupUser(old(db.state), groupId, userObjId)
  {
    var group := GetGroup(db, groupId);
    if group.Err? { return false; }
    ok := AddUserId(db, group.value, userObjId);
    if !ok { return; }
    var user := GetUser(db, userObjId);
    if user.Err? { return false; }
    var ignored := AddGroupIdDeferredUpdate(db, user.value, groupId);
    ok := true;
  }

  /** The handler remGroupUser, after the caller has been authorized. */
  method RemGroupUser(db: InMemClient, groupId: Id, userObjId: Id) returns (ok: bool)
    requires db.Valid()
    modifies db`state, db.Repr
    ensures db.Valid()
    ensures Outcome(db.state, ok) == GroupMembership.RemGroupUser(old(db.state), groupId, userObjId)
  {
    var group := GetGroup(db, groupId);
    if group.Err? { return false; }
    var user := GetUser(db, userObjId);
    if user.Err? { return false; }
    ok := RemoveUser(db, group.value, user.value);
  }
}
