/** dbDeactivateRealm and deleteAllAccess on the objects of the store. */
module DeactivationMethods {
  import opened ObjectStore
  import opened Access
  import opened AccessMethods
  import opened Deactivation

  /** Clearing one list and then another is clearing both. */
  lemma {:induction false} ClearListAppend(s: State, a: seq<Id>, b: seq<Id>)
    ensures ClearList(s, a + b) == if ClearList(s, a).ok then ClearList(ClearList(s, a).state, b) else ClearList(s, a)
    decreases |a|
  {
    if a == [] {
      assert a + b == b;
    } else {
      assert (a + b)[0] == a[0] && (a + b)[1..] == a[1..] + b;
      if IsResource(s, a[0]) { ClearListAppend(Access.DeleteAllAccess(s, a[0]).state, a[1..], b); }
    }
  }

  /** deleteAllAccess */
  method DeleteAllAccess(db: InMemClient, resourceIds: seq<Id>) returns (ok: bool)
    requires db.Valid()
    modifies db`state, db`objects, db`cells, db.Repr
    ensures db.Valid() && KeepsObjects(old(db.objects), db.objects) && OnlyDeletes(db) && db.Repr == old(db.Repr)
    ensures Outcome(db.state, ok) == ClearList(old(db.state), resourceIds)
  {
    ghost var outcome := ClearList(db.state, resourceIds);
    var i := 0;
    while i < |resourceIds|
      invariant 0 <= i <= |resourceIds|
      invariant db.Valid() && KeepsObjects(old(db.objects), db.objects) && OnlyDeletes(db) && db.Repr == old(db.Repr)
      invariant ClearList(db.state, resourceIds[i..]) == outcome
    {
      var resource := db.GetResource(resourceIds[i]);
      if resource.Err? { return false; }
      ok := DeleteAllAccessToResource(db, resource.value);
      if !ok { return; }
      i := i + 1;
    }
    ok := true;
  }

  /** One turn of the loop over the realm's repos: the repo, then its dockerfiles, images, scan configs and flags. */
  method ClearRepo(db: InMemClient, repoId: Id) returns (ok: bool)
    requires db.Valid()
    modifies db`state, db`objects, db`cells, db.Repr
    ensures db.Valid() && KeepsObjects(old(db.objects), db.objects) && OnlyDeletes(db) && db.Repr == old(db.Repr)
    ensures var s := old(db.state);
      Outcome(db.state, ok) ==
        if !IsRepo(s, repoId) then Outcome(s, false)
        else
          var k := s[repoId].resourceKind;
          ClearList(s, [repoId] + (k.dockerfileIds + k.dockerImageIds + k.scanConfigIds + k.flagIds))
  {
    var repo := db.GetResource(repoId);
    if repo.Err? || !repo.value.kind.RepoKind? { return false; }
    assert db.objects[repoId].resource == repo.value;
    ok := ClearContents(db, repo.value, repo.value.kind);
  }

  lemma FiveLists(a: seq<Id>, b: seq<Id>, c: seq<Id>, d: seq<Id>, e: seq<Id>)
    ensures a + b + c + d + e == a + (b + c + d + e)
  {
  }

  method ClearContents(db: InMemClient, repo: Resource, k: ResourceKind) returns (ok: bool)
    requires db.Valid() && db.LiveResource(repo) && k.RepoKind?
    modifies db`state, db`objects, db`cells, db.Repr
    ensures db.Valid() && KeepsObjects(old(db.objects), db.objects) && OnlyDeletes(db) && db.Repr == old(db.Repr)
    ensures Outcome(db.state, ok)
         == ClearList(old(db.state), [repo.id] + (k.dockerfileIds + k.dockerImageIds + k.scanConfigIds + k.flagIds))
  {
    ghost var s := db.state;
    ok := DeleteAllAccessToResource(db, repo);
    ghost var done := [repo.id];
    assert ClearList(s, done) == Outcome(db.state, ok);
    ok := ClearTwo(db, ok, s, done, k.dockerfileIds, k.dockerImageIds);
    ok := ClearTwo(db, ok, s, done + k.dockerfileIds + k.dockerImageIds, k.scanConfigIds, k.flagIds);
    FiveLists(done, k.dockerfileIds, k.dockerImageIds, k.scanConfigIds, k.flagIds);
  }

  /** Go on with two lists. */
  method ClearTwo(db: InMemClient, soFar: bool, ghost s: State, ghost done: seq<Id>, first: seq<Id>, second: seq<Id>)
    returns (ok: bool)
    requires db.Valid() && ClearList(s, done) == Outcome(db.state, soFar)
    modifies db`state, db`objects, db`cells, db.Repr
    ensures db.Valid() && KeepsObjects(old(db.objects), db.objects) && OnlyDeletes(db) && db.Repr == old(db.Repr)
    ensures ClearList(s, done + first + second) == Outcome(db.state, ok)
  {
    ok := ClearMore(db, soFar, s, done, first);
    ok := ClearMore(db, ok, s, done + first, second);
  }

  /** Go on with another list unless an error has been returned. */
  method ClearMore(db: InMemClient, soFar: bool, ghost s: State, ghost done: seq<Id>, ids: seq<Id>) returns (ok: bool)
    requires db.Valid() && ClearList(s, done) == Outcome(db.state, soFar)
    modifies db`state, db`objects, db`cells, db.Repr
    ensures db.Valid() && KeepsObjects(old(db.objects), db.objects) && OnlyDeletes(db) && db.Repr == old(db.Repr)
    ensures ClearList(s, done + ids) == Outcome(db.state, ok)
  {
    ClearListAppend(s, done, ids);
    if !soFar { return false; }
    ok := DeleteAllAccess(db, ids);
  }

  /** The loop that makes users, or groups, inactive. */
  method InactivateAll(db: InMemClient, ids: seq<Id>, users: bool) returns (ok: bool)
    requires db.Valid()
    modifies db`state, db.Repr
    ensures db.Valid() && db.Repr == old(db.Repr) && db.objects == old(db.objects) && db.cells == old(db.cells)
    ensures Outcome(db.state, ok) == Inactivate(old(db.state), ids, users)
  {
    ghost var outcome := Inactivate(db.state, ids, users);
    var i := 0;
    while i < |ids|
      invariant 0 <= i <= |ids|
      invariant db.Valid() && db.Repr == old(db.Repr) && db.objects == old(db.objects) && db.cells == old(db.cells)
      invariant Inactivate(db.state, ids[i..], users) == outcome
    {
      ok := InactivateOne(db, ids[i], users);
      if !ok { return; }
      i := i + 1;
    }
    ok := true;
  }

  /** One turn of that loop. */
  method InactivateOne(db: InMemClient, id: Id, users: bool) returns (ok: bool)
    requires db.Valid()
    modifies db`state, db.Repr
    ensures db.Valid() && db.Repr == old(db.Repr) && db.objects == old(db.objects) && db.cells == old(db.cells)
    ensures var s := old(db.state);
      Outcome(db.state, ok) == if !(if users then IsUser(s, id) else IsGroup(s, id)) then Outcome(s, false)
                               else Outcome(s[id := s[id].(isActive := false)], true)
  {
    var party := db.GetParty(id);
    if party.Err? || party.value.kind.UserKind? != users { return false; }
    db.SetActive(party.value, false);
    ok := true;
  }

  method ClearAllRepos(db: InMemClient, repoIds: seq<Id>) returns (ok: bool)
    requires db.Valid()
    modifies db`state, db`objects, db`cells, db.Repr
    ensures db.Valid() && KeepsObjects(old(db.objects), db.objects) && OnlyDeletes(db) && db.Repr == old(db.Repr)
    ensures Outcome(db.state, ok) == ClearRepos(old(db.state), repoIds)
  {
    ghost var outcome := ClearRepos(db.state, repoIds);
    var i := 0;
    while i < |repoIds|
      invariant 0 <= i <= |repoIds|
      invariant db.Valid() && KeepsObjects(old(db.objects), db.objects) && OnlyDeletes(db) && db.Repr == old(db.Repr)
      invariant ClearRepos(db.state, repoIds[i..]) == outcome
    {
      ok := ClearRepo(db, repoIds[i]);
      if !ok { return; }
      i := i + 1;
    }
    ok := true;
  }

  /** The realm's own access list, and those of everything in its repos. */
  method ClearRealm(db: InMemClient, realm: Resource, repoIds: seq<Id>) returns (ok: bool)
    requires db.Valid() && db.LiveResource(realm)
    modifies db`state, db`objects, db`cells, db.Repr
    ensures db.Valid() && KeepsObjects(old(db.objects), db.objects) && OnlyDeletes(db) && db.Repr == old(db.Repr)
    ensures IsResource(old(db.state), realm.id)
    ensures var o := Access.DeleteAllAccess(old(db.state), realm.id);
      Outcome(db.state, ok) == if !o.ok then o else ClearRepos(o.state, repoIds)
  {
    ok := DeleteAllAccessToResource(db, realm);
    if !ok { return; }
    ok := ClearAllRepos(db, repoIds);
  }

  method DbDeactivateRealm(db: InMemClient, realmId: Id) returns (ok: bool)
    requires db.Valid()
    modifies db`state, db`objects, db`cells, db.Repr
    ensures db.Valid() && KeepsObjects(old(db.objects), db.objects) && OnlyDeletes(db) && db.Repr == old(db.Repr)
    ensures Outcome(db.state, ok) == Deactivate(old(db.state), realmId)
    ensures old(Linked(db.state)) ==>
      && (ok <==> RealmLive(old(db.state), realmId))
      && (ok ==> db.state == Inactive(Cleared(old(db.state), Subtree(old(db.state), realmId)), MembersOf(old(db.state), realmId)))
  {
    if Linked(db.state) { DeactivateMeans(db.state, realmId); }
    var realm := db.GetResource(realmId);
    if realm.Err? || !realm.value.kind.RealmKind? { return false; }
    var k := realm.value.kind;
    ok := ClearRealm(db, realm.value, k.repoIds);
    if !ok { return; }
    ok := InactivateAll(db, k.userObjIds, true);
    if ok { ok := InactivateAll(db, k.groupIds, false); }
  }
}
