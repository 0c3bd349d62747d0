/** Creation of repos, dockerfiles and groups on the objects of the store. */
module ResourceTreeMethods {
  import opened Basics
  import opened ObjectStore
  import opened Access
  import opened Names
  import opened ScanLinkMethods
  import MembershipMethods
  import ResourceTree

  /** The part of dbCreateRepo that makes up a name when none is given. */
  method ChooseRepoName(db: InMemClient, realm: Resource, name: string, prefix: string, prefixConforms: bool)
    returns (r: Result<string>)
    requires db.Valid() && db.LiveResource(realm) && realm.kind.RealmKind?
    ensures IsRealm(db.state, realm.id) && r == ResourceTree.RepoName(db.state, realm.id, name, prefix, prefixConforms)
  {
    LiveRecord(db, realm);
    if name != "" { return Ok(name); }
    r := ScanLinkMethods.CreateUniqueName(db, realm.kind.repoIds, RepoMember, prefix, prefixConforms);
  }

  /** realm.addRepo, for a repo that has been stored. */
  method AddRepo(db: InMemClient, realm: Resource, repo: Resource) returns (ok: bool)
    requires db.Valid() && db.LiveResource(realm) && realm.kind.RealmKind? && db.LiveResource(repo) && repo != realm
    modifies db`state, realm`kind
    ensures db.Valid() && IsRealm(old(db.state), realm.id)
    ensures var s := old(db.state); var ids := s[realm.id].resourceKind.repoIds;
      Outcome(db.state, ok) == if FindByName(s, ids, repo.name, RepoMember) != NotNamed then Outcome(s, false)
                               else Outcome(ResourceTree.WithRepos(s, realm.id, ids + [repo.id]), true)
  {
    LiveRecord(db, realm);
    var found := GetByName(db, realm.kind.repoIds, repo.name, RepoMember);
    if found != NotNamed { return false; }
    db.SetResourceKind(realm, realm.kind.(repoIds := realm.kind.repoIds + [repo.id]));
    ok := true;
  }

  method DbCreateRepo(db: InMemClient, realmId: Id, name: string, prefix: string, prefixConforms: bool, nameConforms: bool)
    returns (ok: bool)
    requires db.Valid()
    modifies db, db.Repr
    ensures db.Valid() && old(db.uniqueId) + 1 !in old(db.state) && fresh(db.Repr - old(db.Repr))
    ensures Outcome(db.state, ok)
         == ResourceTree.CreateRepo(old(db.state), realmId, name, prefix, prefixConforms, nameConforms, old(db.uniqueId) + 1)
  {
    FreshId(db);
    var realm := MembershipMethods.GetRealm(db, realmId);
    if realm.Err? { return false; }
    var repoName := ChooseRepoName(db, realm.value, name, prefix, prefixConforms);
    if repoName.Err? || !nameConforms { return false; }
    var repo := NewResource(db, repoName.value, realmId, RepoKind([], [], [], []));
    LiveRecord(db, realm.value);
    ok := AddRepo(db, realm.value, repo);
  }

  method DbCreateDockerfile(db: InMemClient, repoId: Id, name: string) returns (ok: bool)
    requires db.Valid()
    modifies db, db.Repr
    ensures db.Valid() && old(db.uniqueId) + 1 !in old(db.state) && fresh(db.Repr - old(db.Repr))
    ensures Outcome(db.state, ok) == ResourceTree.CreateDockerfile(old(db.state), repoId, name, old(db.uniqueId) + 1)
  {
    var dockerfile := NewResource(db, name, repoId, DockerfileKind);
    var repo := GetRepo(db, repoId);
    if repo.Err? { return false; }
    var k := repo.value.kind;
    var found := GetByName(db, k.dockerfileIds, name, DockerfileMember);
    if found != NotNamed { return false; }
    db.SetResourceKind(repo.value, k.(dockerfileIds := k.dockerfileIds + [dockerfile.id]));
    ok := true;
  }

  /** NewInMemGroup: the group object under a new id. */
  method NewInMemGroup(db: InMemClient, name: string, realmId: Id) returns (g: Party)
    requires db.Valid()
    modifies db
    ensures db.Valid() && db.LiveParty(g) && fresh(g) && db.Repr == old(db.Repr) + {g}
    ensures g.id == old(db.uniqueId) + 1 && g.id !in old(db.objects)
    ensures db.state == old(db.state)[g.id := PartyRec(name, realmId, true, [], GroupKind([]))]
    ensures db.objects == old(db.objects)[g.id := PartyObj(g)] && db.userIds == old(db.userIds)
  {
    var id := db.CreateUniqueDbObjectId();
    g := new Party(id, name, realmId, GroupKind([]));
    db.StoreParty(g);
  }

  method DbCreateGroup(db: InMemClient, realmId: Id, name: string) returns (ok: bool)
    requires db.Valid()
    modifies db, db.Repr
    ensures db.Valid() && old(db.uniqueId) + 1 !in old(db.state) && fresh(db.Repr - old(db.Repr))
    ensures Outcome(db.state, ok) == ResourceTree.CreateGroup(old(db.state), realmId, name, old(db.uniqueId) + 1)
  {
    FreshId(db);
    var realm := MembershipMethods.GetRealm(db, realmId);
    if realm.Err? { return false; }
    var k := realm.value.kind;
    var found := GetByName(db, k.groupIds, name, GroupMember);
    if found != NotNamed { return false; }
    ok := StoreGroup(db, realm.value, name);
  }

  /** The part of dbCreateGroup behind its checks: the object, the name check of addGroup, and the realm's list. */
  method StoreGroup(db: InMemClient, realm: Resource, name: string) returns (ok: bool)
    requires db.Valid() && db.LiveResource(realm) && IsRealm(db.state, realm.id) && realm.kind.RealmKind?
    requires FindByName(db.state, db.state[realm.id].resourceKind.groupIds, name, GroupMember) == NotNamed
    modifies db, db.Repr
    ensures db.Valid() && fresh(db.Repr - old(db.Repr)) && IsRealm(old(db.state), realm.id)
    ensures ok && old(db.uniqueId) + 1 !in old(db.state)
    ensures var s, newId := old(db.state), old(db.uniqueId) + 1;
      db.state == ResourceTree.WithGroups(s[newId := PartyRec(name, realm.id, true, [], GroupKind([]))], realm.id,
                                          s[realm.id].resourceKind.groupIds + [newId])
  {
    LiveRecord(db, realm);
    var k := realm.kind;
    var group := NewInMemGroup(db, name, realm.id);
    LiveRecord(db, realm);
    SearchAgain(old(db.state), group.id, db.state[group.id], k.groupIds, name, GroupMember);
    var found := GetByName(db, k.groupIds, name, GroupMember);
    if found != NotNamed { return false; }
    db.SetResourceKind(realm, RealmKind(k.userObjIds, k.groupIds + [group.id], k.repoIds));
    ok := true;
  }
}
