/** The membership operations on the objects of the store; each does to the records what `Membership` says. */
module MembershipMethods {
  import opened Basics
  import opened ObjectStore
  import opened Access
  import opened Names
  import opened ScanLinkMethods
  import Membership

  method GetRealm(db: InMemClient, id: Id) returns (r: Result<Resource>)
    requires db.Valid()
    ensures r.Ok? <==> IsRealm(db.state, id)
    ensures r.Ok? ==> db.LiveResource(r.value) && r.value.id == id && db.state[id] == r.value.View()
  {
    r := db.GetResource(id);
    if r.Ok? && !r.value.kind.RealmKind? { r := Err; }
  }

  method GetUser(db: InMemClient, id: Id) returns (r: Result<Party>)
    requires db.Valid()
    ensures r.Ok? <==> IsUser(db.state, id)
    ensures r.Ok? ==> db.LiveParty(r.value) && r.value.id == id && db.state[id] == r.value.View()
  {
    r := db.GetParty(id);
    if r.Ok? && !r.value.kind.UserKind? { r := Err; }
  }

  method SetUserObjIds(db: InMemClient, realm: Resource, ids: seq<Id>)
    requires db.Valid() && db.LiveResource(realm) && realm.kind.RealmKind?
    modifies realm`kind, db`state
    ensures db.Valid() && IsRealm(old(db.state), realm.id) && realm.kind.RealmKind?
    ensures db.state == Membership.WithUsers(old(db.state), realm.id, ids)
  {
    LiveRecord(db, realm);
    db.SetResourceKind(realm, realm.kind.(userObjIds := ids));
  }

  /** realm.addUserId */
  method AddUserId(db: InMemClient, realm: Resource, userObjId: Id) returns (ok: bool)
    requires db.Valid() && db.LiveResource(realm) && realm.kind.RealmKind?
    modifies db`state, db.Repr
    ensures db.Valid() && IsRealm(old(db.state), realm.id)
    ensures Outcome(db.state, ok) == Membership.AddUserId(old(db.state), realm.id, userObjId)
  {
    LiveRecord(db, realm);
    var user := GetUser(db, userObjId);
    if user.Err? { return false; }
    if user.value.realmId != NO_ID { return false; }
    var found := GetByName(db, realm.kind.userObjIds, user.value.name, UserMember);
    if found != NotNamed { return false; }
    SetUserObjIds(db, realm, realm.kind.userObjIds + [userObjId]);
    db.SetRealmId(user.value, realm.id);
    ok := true;
  }

  /** realm.removeUserId */
  method RemoveUserId(db: InMemClient, realm: Resource, userObjId: Id) returns (ok: bool)
    requires db.Valid() && db.LiveResource(realm) && realm.kind.RealmKind?
    modifies db`state, db.Repr
    ensures db.Valid() && db.objects == old(db.objects) && db.Repr == old(db.Repr)
    ensures IsRealm(old(db.state), realm.id)
    ensures Outcome(db.state, ok) == Membership.RemoveUserId(old(db.state), realm.id, userObjId)
  {
    LiveRecord(db, realm);
    var user := GetUser(db, userObjId);
    if user.Err? { return false; }
    if user.value.realmId != realm.id { return false; }
    SetUserObjIds(db, realm, RemoveFrom(userObjId, realm.kind.userObjIds));
    db.SetRealmId(user.value, NO_ID);
    ok := true;
  }

  /** The handler moveUserToRealm, after the caller has been authorized. */
  method MoveUserToRealm(db: InMemClient, realmId: Id, userObjId: Id) returns (ok: bool)
    requires db.Valid()
    modifies db`state, db.Repr
    ensures db.Valid()
    ensures Outcome(db.state, ok) == Membership.MoveUser(old(db.state), userObjId, realmId)
  {
    var destRealm := GetRealm(db, realmId);
    if destRealm.Err? { return false; }
    var user := GetUser(db, userObjId);
    if user.Err? { return false; }
    var origRealm := GetRealm(db, user.value.realmId);
    if origRealm.Err? || origRealm.value.id == destRealm.value.id { return false; }
    ok := RemoveUserId(db, origRealm.value, userObjId);
    if !ok { return; }
    LiveRecord(db, destRealm.value);
    ok := AddUserId(db, destRealm.value, userObjId);
  }

  /** NewInMemUser: the user object under a new id, and the id under the login name. */
  method NewInMemUser(db: InMemClient, login: string, name: string, realmId: Id) returns (u: Party)
    requires db.Valid()
    modifies db
    ensures db.Valid() && db.LiveParty(u) && fresh(u) && db.Repr == old(db.Repr) + {u}
    ensures u.id == old(db.uniqueId) + 1 && u.id !in old(db.objects)
    ensures u.View() == Membership.NewUserRec(realmId, login, name)
    ensures db.state == old(db.state)[u.id := u.View()] && db.objects == old(db.objects)[u.id := PartyObj(u)]
    ensures db.userIds == old(db.userIds)[login := u.id]
  {
    var id := db.CreateUniqueDbObjectId();
    u := new Party(id, name, realmId, UserKind(login, []));
    db.StoreUser(u, login);
  }

  /** dbCreateUser: a login name is taken for good once the user object is stored, even if the realm then refuses it. */
  method DbCreateUser(db: InMemClient, login: string, name: string, realmId: Id) returns (ok: bool)
    requires db.Valid()
    modifies db, db.Repr
    ensures db.Valid() && old(db.uniqueId) + 1 !in old(db.state) && fresh(db.Repr - old(db.Repr))
    ensures if login in old(db.userIds) || !IsRealm(old(db.state), realmId)
      then !ok && db.state == old(db.state) && db.userIds == old(db.userIds)
      else && Outcome(db.state, ok) == Membership.CreateUser(old(db.state), realmId, login, name, old(db.uniqueId) + 1)
           && db.userIds == old(db.userIds)[login := old(db.uniqueId) + 1]
  {
    FreshId(db);
    if login in db.userIds { return false; }
    var realm := GetRealm(db, realmId);
    if realm.Err? { return false; }
    var newUser := NewInMemUser(db, login, name, realmId);
    LiveRecord(db, realm.value);
    ok := AddUser(db, realm.value, newUser);
  }

  /** realm.addUser */
  method AddUser(db: InMemClient, realm: Resource, user: Party) returns (ok: bool)
    requires db.Valid() && db.LiveResource(realm) && realm.kind.RealmKind? && db.LiveParty(user) && user.kind.UserKind?
    modifies db`state, realm`kind, user`realmId
    ensures db.Valid() && IsRealm(old(db.state), realm.id) && IsUser(old(db.state), user.id)
    ensures Outcome(db.state, ok) == Membership.AddUser(old(db.state), realm.id, user.id)
  {
    LiveRecord(db, realm);
    assert db.objects[user.id].party == user;
    var found := GetByName(db, realm.kind.userObjIds, user.name, UserMember);
    if found != NotNamed { return false; }
    SetUserObjIds(db, realm, realm.kind.userObjIds + [user.id]);
    db.SetRealmId(user, realm.id);
    ok := true;
  }
}
