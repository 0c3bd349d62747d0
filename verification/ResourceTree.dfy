/**
Realms, their repos and groups, and the dockerfiles of repos: a parent lists its children, and a child names its parent.
Creation changes the two sides in separate steps.
*/
module ResourceTree {
  import opened Basics
  import opened ObjectStore
  import opened Access
  import opened Names
  import opened ScanLinks
  import opened Membership
  import opened Deactivation

  function WithRepos(s: State, realmId: Id, ids: seq<Id>): State
    requires IsRealm(s, realmId)
  {
    s[realmId := s[realmId].(resourceKind := s[realmId].resourceKind.(repoIds := ids))]
  }

  function WithGroups(s: State, realmId: Id, ids: seq<Id>): State
    requires IsRealm(s, realmId)
  {
    var k := s[realmId].resourceKind;
    s[realmId := s[realmId].(resourceKind := RealmKind(k.userObjIds, ids, k.repoIds))]
  }

  /** The name of a new repo: the one that is given, or else a unique one that starts with the prefix. */
  function RepoName(s: State, realmId: Id, name: string, prefix: string, prefixConforms: bool): Result<string>
    requires IsRealm(s, realmId)
  {
    if name != "" then Ok(name)
    else CreateUniqueName(s, s[realmId].resourceKind.repoIds, RepoMember, prefix, prefixConforms)
  }

  /** The record of a new repo. */
  function NewRepoRec(name: string, realmId: Id): Record { ResourceRec(name, realmId, [], RepoKind([], [], [], [])) }

  /**
  dbCreateRepo: the repo is stored before the realm checks the name. The two verdicts are those of the name rules on the
  prefix and on the name.
  */
  function CreateRepo(s: State, realmId: Id, name: string, prefix: string, prefixConforms: bool, nameConforms: bool,
                      newId: Id): Outcome
    requires newId !in s
  {
    if !IsRealm(s, realmId) then Outcome(s, false)
    else
      var chosen := RepoName(s, realmId, name, prefix, prefixConforms);
      if chosen.Err? || !nameConforms then Outcome(s, false)
      else
        var s1 := s[newId := NewRepoRec(chosen.value, realmId)];
        var ids := s[realmId].resourceKind.repoIds;
        if FindByName(s1, ids, chosen.value, RepoMember) != NotNamed then Outcome(s1, false)
        else Outcome(WithRepos(s1, realmId, ids + [newId]), true)
  }

  /** dbCreateDockerfile: the dockerfile is stored before the repo is looked up and checks the name. */
  function CreateDockerfile(s: State, repoId: Id, name: string, newId: Id): Outcome
    requires newId !in s
  {
    var s1 := s[newId := ResourceRec(name, repoId, [], DockerfileKind)];
    if !IsRepo(s1, repoId) then Outcome(s1, false)
    else
      var k := s1[repoId].resourceKind;
      if FindByName(s1, k.dockerfileIds, name, DockerfileMember) != NotNamed then Outcome(s1, false)
      else Outcome(WithRepoKind(s1, repoId, k.(dockerfileIds := k.dockerfileIds + [newId])), true)
  }

  /**
  dbCreateGroup. The second search by name, in addGroup, finds nothing either (Names.SearchAgain).
  */
  function CreateGroup(s: State, realmId: Id, name: string, newId: Id): Outcome
    requires newId !in s
  {
    if !IsRealm(s, realmId) then Outcome(s, false)
    else
      var ids := s[realmId].resourceKind.groupIds;
      if FindByName(s, ids, name, GroupMember) != NotNamed then Outcome(s, false)
      else Outcome(WithGroups(s[newId := PartyRec(name, realmId, true, [], GroupKind([]))], realmId, ids + [newId]), true)
  }

  // ----- What holds of the tree -----

  predicate ListsGroup(s: State, r: Id, x: Id) { IsRealm(s, r) && x in s[r].resourceKind.groupIds }

  /** What a parent lists is live, of the right type, and names that parent; a realm has no parent; lists have no repetition. */
  ghost predicate TreeOk(s: State) {
    && (forall r, x {:trigger ListsRepo(s, r, x)} :: ListsRepo(s, r, x) ==> IsRepo(s, x) && s[x].parentId == r)
    && (forall r, x {:trigger ListsGroup(s, r, x)} :: ListsGroup(s, r, x) ==> IsGroup(s, x) && s[x].realmId == r)
    && (forall r, x {:trigger ListsDockerfile(s, r, x)} :: ListsDockerfile(s, r, x) ==> IsDockerfile(s, x) && s[x].parentId == r)
    && (forall r {:trigger IsRealm(s, r)} :: IsRealm(s, r) ==>
          s[r].parentId == NO_ID && NoDup(s[r].resourceKind.repoIds) && NoDup(s[r].resourceKind.groupIds))
    && (forall r {:trigger IsRepo(s, r)} :: IsRepo(s, r) ==> NoDup(s[r].resourceKind.dockerfileIds))
  }

  /** The part of a record that has to do with the tree. */
  datatype Node =
    | RealmNode(parentId: Id, groupIds: seq<Id>, repoIds: seq<Id>)
    | RepoNode(parentId: Id, dockerfileIds: seq<Id>)
    | FileNode(parentId: Id)
    | GroupNode(realmId: Id)
    | NoNode

  function NodeOf(s: State, x: Id): Node {
    if IsRealm(s, x) then RealmNode(s[x].parentId, s[x].resourceKind.groupIds, s[x].resourceKind.repoIds)
    else if IsRepo(s, x) then RepoNode(s[x].parentId, s[x].resourceKind.dockerfileIds)
    else if IsDockerfile(s, x) then FileNode(s[x].parentId)
    else if IsGroup(s, x) then GroupNode(s[x].realmId)
    else NoNode
  }

  ghost predicate SameTree(s: State, t: State) {
    forall x {:trigger NodeOf(t, x)} :: NodeOf(t, x) == NodeOf(s, x)
  }

  lemma SameTreeLists(s: State, t: State)
    requires TreeOk(s) && SameTree(s, t)
    ensures forall r, x :: ListsRepo(t, r, x) ==> IsRepo(t, x) && t[x].parentId == r
    ensures forall r, x :: ListsGroup(t, r, x) ==> IsGroup(t, x) && t[x].realmId == r
    ensures forall r, x :: ListsDockerfile(t, r, x) ==> IsDockerfile(t, x) && t[x].parentId == r
  {
    forall r, x | ListsRepo(t, r, x) ensures IsRepo(t, x) && t[x].parentId == r {
      assert NodeOf(t, r) == NodeOf(s, r) && NodeOf(t, x) == NodeOf(s, x) && ListsRepo(s, r, x);
    }
    forall r, x | ListsGroup(t, r, x) ensures IsGroup(t, x) && t[x].realmId == r {
      assert NodeOf(t, r) == NodeOf(s, r) && NodeOf(t, x) == NodeOf(s, x) && ListsGroup(s, r, x);
    }
    forall r, x | ListsDockerfile(t, r, x) ensures IsDockerfile(t, x) && t[x].parentId == r {
      assert NodeOf(t, r) == NodeOf(s, r) && NodeOf(t, x) == NodeOf(s, x) && ListsDockerfile(s, r, x);
    }
  }

  lemma SameTreeOk(s: State, t: State)
    requires TreeOk(s) && SameTree(s, t)
    ensures TreeOk(t)
  {
    SameTreeLists(s, t);
    forall r | IsRealm(t, r)
      ensures t[r].parentId == NO_ID && NoDup(t[r].resourceKind.repoIds) && NoDup(t[r].resourceKind.groupIds)
    {
      assert NodeOf(t, r) == NodeOf(s, r) && IsRealm(s, r);
    }
    forall r | IsRepo(t, r) ensures NoDup(t[r].resourceKind.dockerfileIds) { assert NodeOf(t, r) == NodeOf(s, r) && IsRepo(s, r); }
  }

  // ----- What deactivation needs of the tree -----

  /** In a store whose links are in step, everything a realm and its repos list is live and names the right parent. */
  lemma TreeMeans(s: State, realmId: Id)
    requires TreeOk(s) && ReposOk(s) && MembersOk(s) && IsRealm(s, realmId)
    ensures TreeParents(s, realmId) && RealmLive(s, realmId)
  {
    var k := s[realmId].resourceKind;
    forall r, x | ListsRepo(s, realmId, r) && InRepo(s, r, x) ensures IsResource(s, x) && s[x].parentId == r { }
    forall u | u in k.userObjIds ensures IsUser(s, u) { assert ListsUser(s, realmId, u) && BelongsTo(s, u, realmId); }
    forall g | g in k.groupIds ensures IsGroup(s, g) { assert ListsGroup(s, realmId, g); }
  }

  // ----- Creation -----

  /** A stored object that is not yet in any list. */
  lemma StoreKeepsTree(s: State, x: Id, rec: Record)
    requires TreeOk(s) && x !in s
    requires rec.ResourceRec? && rec.resourceKind.RealmKind? ==>
      rec.parentId == NO_ID && rec.resourceKind.repoIds == [] && rec.resourceKind.groupIds == []
    requires rec.ResourceRec? && rec.resourceKind.RepoKind? ==> rec.resourceKind.dockerfileIds == []
    ensures TreeOk(s[x := rec])
  {
    var t := s[x := rec];
    forall r, y | ListsRepo(t, r, y) ensures IsRepo(t, y) && t[y].parentId == r { assert ListsRepo(s, r, y); }
    forall r, y | ListsGroup(t, r, y) ensures IsGroup(t, y) && t[y].realmId == r { assert ListsGroup(s, r, y); }
    forall r, y | ListsDockerfile(t, r, y) ensures IsDockerfile(t, y) && t[y].parentId == r { assert ListsDockerfile(s, r, y); }
    forall r | IsRealm(t, r)
      ensures t[r].parentId == NO_ID && NoDup(t[r].resourceKind.repoIds) && NoDup(t[r].resourceKind.groupIds)
    {
      assert r != x ==> IsRealm(s, r);
    }
    forall r | IsRepo(t, r) ensures NoDup(t[r].resourceKind.dockerfileIds) { assert r != x ==> IsRepo(s, r); }
  }

  /** A list with one more child that names the parent. */
  lemma ListKeepsTree(s: State, t: State, p: Id, x: Id)
    requires TreeOk(s) && p in s && t.Keys == s.Keys && forall y :: y in s && y != p ==> t[y] == s[y]
    requires || (IsRealm(s, p) && IsRepo(s, x) && s[x].parentId == p && !ListsRepo(s, p, x)
                 && t == WithRepos(s, p, s[p].resourceKind.repoIds + [x]))
             || (IsRealm(s, p) && IsGroup(s, x) && s[x].realmId == p && !ListsGroup(s, p, x)
                 && t == WithGroups(s, p, s[p].resourceKind.groupIds + [x]))
             || (IsRepo(s, p) && IsDockerfile(s, x) && s[x].parentId == p && !ListsDockerfile(s, p, x)
                 && t == WithRepoKind(s, p, s[p].resourceKind.(dockerfileIds := s[p].resourceKind.dockerfileIds + [x])))
    ensures TreeOk(t)
  {
    ListKeepsLists(s, t, p, x);
    forall r | IsRealm(t, r)
      ensures t[r].parentId == NO_ID && NoDup(t[r].resourceKind.repoIds) && NoDup(t[r].resourceKind.groupIds)
    {
      assert IsRealm(s, r);
    }
    forall r | IsRepo(t, r) ensures NoDup(t[r].resourceKind.dockerfileIds) { assert IsRepo(s, r); }
  }

  lemma ListKeepsLists(s: State, t: State, p: Id, x: Id)
    requires TreeOk(s) && p in s && t.Keys == s.Keys && forall y :: y in s && y != p ==> t[y] == s[y]
    requires || (IsRealm(s, p) && IsRepo(s, x) && s[x].parentId == p && t == WithRepos(s, p, s[p].resourceKind.repoIds + [x]))
             || (IsRealm(s, p) && IsGroup(s, x) && s[x].realmId == p && t == WithGroups(s, p, s[p].resourceKind.groupIds + [x]))
             || (IsRepo(s, p) && IsDockerfile(s, x) && s[x].parentId == p
                 && t == WithRepoKind(s, p, s[p].resourceKind.(dockerfileIds := s[p].resourceKind.dockerfileIds + [x])))
    ensures forall r, y :: ListsRepo(t, r, y) ==> IsRepo(t, y) && t[y].parentId == r
    ensures forall r, y :: ListsGroup(t, r, y) ==> IsGroup(t, y) && t[y].realmId == r
    ensures forall r, y :: ListsDockerfile(t, r, y) ==> IsDockerfile(t, y) && t[y].parentId == r
  {
    forall r, y | ListsRepo(t, r, y) ensures IsRepo(t, y) && t[y].parentId == r {
      assert ListsRepo(s, r, y) || (r == p && y == x);
    }
    forall r, y | ListsGroup(t, r, y) ensures IsGroup(t, y) && t[y].realmId == r {
      assert ListsGroup(s, r, y) || (r == p && y == x);
    }
    forall r, y | ListsDockerfile(t, r, y) ensures IsDockerfile(t, y) && t[y].parentId == r {
      assert ListsDockerfile(s, r, y) || (r == p && y == x);
    }
  }

  /** What the parents list is live. */
  lemma ChildrenLive(s: State, r: Id)
    requires TreeOk(s)
    ensures IsRealm(s, r) ==>
      MembersLive(s, s[r].resourceKind.repoIds, RepoMember) && MembersLive(s, s[r].resourceKind.groupIds, GroupMember)
    ensures IsRepo(s, r) ==> MembersLive(s, s[r].resourceKind.dockerfileIds, DockerfileMember)
  {
    if IsRealm(s, r) {
      forall x | x in s[r].resourceKind.repoIds ensures IsRepo(s, x) { assert ListsRepo(s, r, x); }
      forall x | x in s[r].resourceKind.groupIds ensures IsGroup(s, x) { assert ListsGroup(s, r, x); }
    }
    if IsRepo(s, r) {
      forall x | x in s[r].resourceKind.dockerfileIds ensures IsDockerfile(s, x) { assert ListsDockerfile(s, r, x); }
    }
  }

  /** `t` has one new object, which realm `r` lists as a repo or as a group; nothing else has changed. */
  ghost predicate RealmGains(s: State, t: State, r: Id, x: Id, rec: Record) {
    && t.Keys == s.Keys + {x} && t[x] == rec && (forall y {:trigger t[y]} :: y in s && y != r ==> t[y] == s[y])
    && IsRealm(s, r) && IsRealm(t, r) && SameButKind(s[r], t[r]) && t[r].resourceKind.userObjIds == s[r].resourceKind.userObjIds
    && (forall p, y {:trigger ListsRepo(t, p, y)} ::
          ListsRepo(t, p, y) <==> ListsRepo(s, p, y) || (p == r && y == x && rec.ResourceRec?))
    && (forall p, y {:trigger ListsGroup(t, p, y)} ::
          ListsGroup(t, p, y) <==> ListsGroup(s, p, y) || (p == r && y == x && rec.PartyRec?))
  }

  /** `t` has one new dockerfile, which repo `r` lists; nothing else has changed. */
  ghost predicate FileGained(s: State, t: State, r: Id, x: Id, rec: Record) {
    && t.Keys == s.Keys + {x} && t[x] == rec && (forall y {:trigger t[y]} :: y in s && y != r ==> t[y] == s[y])
    && IsRepo(s, r) && IsRepo(t, r) && SameButKind(s[r], t[r]) && SameButFiles(s[r].resourceKind, t[r].resourceKind)
    && (forall p, y {:trigger ListsDockerfile(t, p, y)} ::
          ListsDockerfile(t, p, y) <==> ListsDockerfile(s, p, y) || (p == r && y == x))
  }

  predicate SameButFiles(k: ResourceKind, l: ResourceKind)
    requires k.RepoKind? && l.RepoKind?
  {
    k.dockerImageIds == l.dockerImageIds && k.scanConfigIds == l.scanConfigIds && k.flagIds == l.flagIds
  }

  ghost predicate RepoNameFree(s: State, realmId: Id, name: string)
    requires IsRealm(s, realmId)
  {
    !Taken(s, s[realmId].resourceKind.repoIds, RepoMember, name)
  }

  /**
  dbCreateRepo keeps the tree whether it succeeds or not. With a name of its own it succeeds exactly when the realm is
  live, the rules allow the name and no repo of the realm has it. Without one, it succeeds exactly when the rules allow
  prefix and name and one of the 1000 names of the prefix is free, as with fewer than 1000 repos; the repo then has the
  free name with the least number. The realm lists the new repo, which has no content, and nothing else changes.
  */
  lemma CreateRepoMeans(s: State, realmId: Id, name: string, prefix: string, prefixConforms: bool, nameConforms: bool, newId: Id)
    requires TreeOk(s) && newId !in s
    ensures var o := CreateRepo(s, realmId, name, prefix, prefixConforms, nameConforms, newId);
      && TreeOk(o.state)
      && (name != "" ==> (o.ok <==> IsRealm(s, realmId) && nameConforms && RepoNameFree(s, realmId, name)))
      && (name == "" ==> (o.ok <==> IsRealm(s, realmId) && prefixConforms && nameConforms
                                    && SomeFree(s, s[realmId].resourceKind.repoIds, RepoMember, prefix)))
      && (name == "" && IsRealm(s, realmId) && prefixConforms && nameConforms && |s[realmId].resourceKind.repoIds| < 1000 ==> o.ok)
      && (o.ok ==> newId in o.state && o.state[newId].ResourceRec? && var given := o.state[newId].name;
            && RealmGains(s, o.state, realmId, newId, ResourceRec(given, realmId, [], RepoKind([], [], [], [])))
            && if name != "" then given == name else LeastFree(s, s[realmId].resourceKind.repoIds, RepoMember, prefix, given))
      && (!o.ok ==> o.state == if name != "" && IsRealm(s, realmId) && nameConforms
                                 then s[newId := ResourceRec(name, realmId, [], RepoKind([], [], [], []))] else s)
  {
    if IsRealm(s, realmId) {
      var ids := s[realmId].resourceKind.repoIds;
      ChildrenLive(s, realmId);
      CreateUniqueNameMeans(s, ids, RepoMember, prefix, prefixConforms);
      var chosen := RepoName(s, realmId, name, prefix, prefixConforms);
      if chosen.Ok? && nameConforms {
        SearchAfterStore(s, newId, NewRepoRec(chosen.value, realmId), ids, chosen.value, RepoMember);
        ListNewRepo(s, realmId, chosen.value, newId);
      }
    }
  }

  lemma ListNewRepo(s: State, realmId: Id, name: string, newId: Id)
    requires TreeOk(s) && IsRealm(s, realmId) && newId !in s
    ensures var s1 := s[newId := NewRepoRec(name, realmId)];
      var t := WithRepos(s1, realmId, s[realmId].resourceKind.repoIds + [newId]);
      TreeOk(s1) && TreeOk(t) && RealmGains(s, t, realmId, newId, NewRepoRec(name, realmId))
  {
    var rec := NewRepoRec(name, realmId);
    var s1 := s[newId := rec];
    var ids := s[realmId].resourceKind.repoIds;
    StoreKeepsTree(s, newId, rec);
    assert !ListsRepo(s1, realmId, newId) by { var listed := ListsRepo(s, realmId, newId); }
    ListKeepsTree(s1, WithRepos(s1, realmId, ids + [newId]), realmId, newId);
    ReposGained(s, realmId, rec, newId);
  }

  lemma ReposGained(s: State, r: Id, rec: Record, x: Id)
    requires IsRealm(s, r) && x !in s && rec.ResourceRec? && !rec.resourceKind.RealmKind?
    ensures RealmGains(s, WithRepos(s[x := rec], r, s[r].resourceKind.repoIds + [x]), r, x, rec)
  {
    var t := WithRepos(s[x := rec], r, s[r].resourceKind.repoIds + [x]);
    assert forall p, y {:trigger ListsRepo(t, p, y)} :: ListsRepo(t, p, y) <==> ListsRepo(s, p, y) || (p == r && y == x);
    assert forall p, y {:trigger ListsGroup(t, p, y)} :: ListsGroup(t, p, y) <==> ListsGroup(s, p, y);
  }

  lemma GroupsGained(s: State, r: Id, rec: Record, x: Id)
    requires IsRealm(s, r) && x !in s && rec.PartyRec?
    ensures RealmGains(s, WithGroups(s[x := rec], r, s[r].resourceKind.groupIds + [x]), r, x, rec)
  {
    var t := WithGroups(s[x := rec], r, s[r].resourceKind.groupIds + [x]);
    assert forall p, y {:trigger ListsRepo(t, p, y)} :: ListsRepo(t, p, y) <==> ListsRepo(s, p, y);
    assert forall p, y {:trigger ListsGroup(t, p, y)} :: ListsGroup(t, p, y) <==> ListsGroup(s, p, y) || (p == r && y == x);
  }

  lemma FilesGained(s: State, r: Id, rec: Record, x: Id)
    requires IsRepo(s, r) && x !in s && rec.ResourceRec? && rec.resourceKind.DockerfileKind?
    ensures var s1 := s[x := rec]; var k := s[r].resourceKind;
      FileGained(s, WithRepoKind(s1, r, k.(dockerfileIds := k.dockerfileIds + [x])), r, x, rec)
  {
    var k := s[r].resourceKind;
    var t := WithRepoKind(s[x := rec], r, k.(dockerfileIds := k.dockerfileIds + [x]));
    assert forall p, y {:trigger ListsDockerfile(t, p, y)} ::
      ListsDockerfile(t, p, y) <==> ListsDockerfile(s, p, y) || (p == r && y == x);
  }

  /**
  dbCreateDockerfile keeps the tree whether it succeeds or not. When it succeeds the repo lists the new file and nothing
  else changes; when it fails the file is stored and not listed.
  */
  lemma CreateDockerfileMeans(s: State, repoId: Id, name: string, newId: Id)
    requires TreeOk(s) && newId !in s
    ensures var o := CreateDockerfile(s, repoId, name, newId);
      && TreeOk(o.state)
      && (o.ok <==> IsRepo(s, repoId) && !Taken(s, s[repoId].resourceKind.dockerfileIds, DockerfileMember, name))
      && (o.ok ==> FileGained(s, o.state, repoId, newId, ResourceRec(name, repoId, [], DockerfileKind)))
      && (!o.ok ==> o.state == s[newId := ResourceRec(name, repoId, [], DockerfileKind)])
  {
    var rec := ResourceRec(name, repoId, [], DockerfileKind);
    var s1 := s[newId := rec];
    StoreKeepsTree(s, newId, rec);
    if IsRepo(s, repoId) {
      var k := s[repoId].resourceKind;
      ChildrenLive(s, repoId);
      SearchAfterStore(s, newId, rec, k.dockerfileIds, name, DockerfileMember);
      assert !ListsDockerfile(s1, repoId, newId) by { var listed := ListsDockerfile(s, repoId, newId); }
      ListKeepsTree(s1, WithRepoKind(s1, repoId, k.(dockerfileIds := k.dockerfileIds + [newId])), repoId, newId);
      FilesGained(s, repoId, rec, newId);
    }
  }

  /** dbCreateGroup, likewise for the realm's groups; when it fails it changes nothing. */
  lemma CreateGroupMeans(s: State, realmId: Id, name: string, newId: Id)
    requires TreeOk(s) && newId !in s
    ensures var o := CreateGroup(s, realmId, name, newId);
      && TreeOk(o.state) && (!o.ok ==> o.state == s)
      && (o.ok <==> IsRealm(s, realmId) && !Taken(s, s[realmId].resourceKind.groupIds, GroupMember, name))
      && (o.ok ==> RealmGains(s, o.state, realmId, newId, PartyRec(name, realmId, true, [], GroupKind([]))))
  {
    if IsRealm(s, realmId) {
      var ids := s[realmId].resourceKind.groupIds;
      var rec := PartyRec(name, realmId, true, [], GroupKind([]));
      var s1 := s[newId := rec];
      ChildrenLive(s, realmId);
      SearchAfterStore(s, newId, rec, ids, name, GroupMember);
      StoreKeepsTree(s, newId, rec);
      assert !ListsGroup(s1, realmId, newId) by { var listed := ListsGroup(s, realmId, newId); }
      ListKeepsTree(s1, WithGroups(s1, realmId, ids + [newId]), realmId, newId);
      GroupsGained(s, realmId, rec, newId);
    }
  }
}
