/**
Whole runs of all operations on one store, failed calls included: access lists, the lists of repos, realm membership,
group membership and the tree of realms, repos and dockerfiles stay in step together, and deactivation always finds
what it needs.
*/
module StoreRuns {
  import opened Basics
  import opened ObjectStore
  import opened Access
  import opened AccessProofs
  import opened ClearProofs
  import opened Authorization
  import opened AuthorizationProofs
  import opened ScanLinks
  import opened ScanLinkProofs
  import opened Membership
  import opened GroupMembership
  import opened Deactivation
  import opened ResourceTree
  import opened StoreFrames
  import AccessRuns
  import ScanLinkCreation
  import ScanLinkRuns

  /** Every relation that is kept on two sides and that no operation breaks is in step. */
  ghost predicate RelationsOk(s: State) {
    Consistent(s) && ReposOk(s) && MembersOk(s) && TreeOk(s) && GroupsOk(s)
  }

  /** The invariant of the store. */
  ghost predicate StoreOk(w: AccessRuns.World) {
    AccessRuns.WorldOk(w) && RelationsOk(w.state) && w.lastId >= 0
  }

  datatype StoreOp =
    | OnAccess(access: AccessRuns.Op)
    | OnLinks(link: ScanLinkRuns.LinkOp)
    | OnMembers(member: MemberOp)
    | NewRepo(realmId: Id, name: string, prefix: string, prefixConforms: bool, nameConforms: bool)
    | NewDockerfile(repoId: Id, name: string)
    | NewGroup(realmId: Id, name: string)
    | AddToGroup(groupId: Id, userObjId: Id)
    | RemoveFromGroup(groupId: Id, userObjId: Id)
    | DeactivateRealm(realmId: Id)

  /** The id of the new object, if there is one; a scan event comes behind its parameter values. */
  function NewIdOf(w: AccessRuns.World, op: StoreOp): Id {
    if op.OnLinks? && op.link.NewEvent? then w.lastId + |op.link.values| + 1 else w.lastId + 1
  }

  /**
  What the callers see to: the access operations are called as AccessRuns.MayDo says. All other operations may be called
  with any arguments, and may fail at any point. The parameter values of an event get the next ids.
  */
  ghost predicate MayDo(w: AccessRuns.World, op: StoreOp)
    requires StoreOk(w)
  {
    match op
    case OnAccess(a) => !a.NewResource? && !a.NewParty? && AccessRuns.MayDo(w, a)
    case OnLinks(l) => !l.Store? && (l.NewEvent? ==> l.values == NextIds(w.lastId + 1, |l.values|))
    case _ => true
  }

  /** The records after an operation that is not an access operation. */
  function Result(s: State, op: StoreOp, newId: Id): State
    requires newId !in s && !op.OnAccess? && (op.OnLinks? ==> ScanLinkRuns.FreshIds(s, op.link, newId))
  {
    match op
    case OnLinks(l) => ScanLinkRuns.LinkStep(s, l, newId).state
    case OnMembers(m) => MemberStep(s, m, newId).state
    case NewRepo(r, n, p, pc, nc) => CreateRepo(s, r, n, p, pc, nc, newId).state
    case NewDockerfile(r, n) => CreateDockerfile(s, r, n, newId).state
    case NewGroup(r, n) => CreateGroup(s, r, n, newId).state
    case AddToGroup(g, u) => AddGroupUser(s, g, u).state
    case RemoveFromGroup(g, u) => RemGroupUser(s, g, u).state
    case DeactivateRealm(r) => Deactivate(s, r).state
  }

  /** The world with other records, in which the entries that are left keep their mask arrays. */
  function After(w: AccessRuns.World, t: State, lastId: Id): AccessRuns.World {
    AccessRuns.World(t, AccessRuns.Kept(w, t).cells, lastId)
  }

  ghost function Step(w: AccessRuns.World, op: StoreOp): AccessRuns.World
    requires StoreOk(w) && MayDo(w, op)
  {
    match op
    case OnAccess(a) => AccessRuns.Step(w, a)
    case _ => IdsAreNew(w, op); After(w, Result(w.state, op, NewIdOf(w, op)), NewIdOf(w, op))
  }

  lemma IdsAreNew(w: AccessRuns.World, op: StoreOp)
    requires StoreOk(w) && MayDo(w, op)
    ensures NewIdOf(w, op) !in w.state && NewIdOf(w, op) > 0
    ensures op.OnLinks? ==> ScanLinkRuns.FreshIds(w.state, op.link, NewIdOf(w, op))
  {
  }

  // ----- What an operation keeps -----

  ghost predicate SameEntries(s: State, t: State) {
    forall x {:trigger IsEntry(t, x)} :: IsEntry(t, x) ==> IsEntry(s, x) && t[x] == s[x]
  }

  /** No user loses a group. */
  ghost predicate GroupsStay(s: State, t: State) {
    forall u, g {:trigger MemberOf(t, u, g)} {:trigger MemberOf(s, u, g)} :: MemberOf(s, u, g) ==> MemberOf(t, u, g)
  }

  /** No entry is made or changed, no link gets out of step, no user loses a group, and only `handed` may be new. */
  ghost predicate Keeps(s: State, t: State, handed: set<Id>) {
    SameEntries(s, t) && (LinksOk(s) ==> LinksOk(t)) && GroupsStay(s, t) && t.Keys <= s.Keys + handed
  }

  lemma KeepsTwice(s: State, t: State, u: State, handed: set<Id>)
    requires Keeps(s, t, handed) && Keeps(t, u, handed)
    ensures Keeps(s, u, handed)
  {
  }

  /** Links and access lists look the same. */
  ghost predicate Quiet(s: State, t: State) { SameShapes(s, t) && SameAccess(s, t) && t.Keys == s.Keys }

  lemma QuietOk(s: State, t: State)
    requires Quiet(s, t) && Consistent(s) && ReposOk(s)
    ensures Consistent(t) && ReposOk(t) && SameEntries(s, t) && (LinksOk(s) ==> LinksOk(t))
  {
    ShapesOk(s, t);
    SameAccessConsistent(s, t);
  }

  lemma ShapesOk(s: State, t: State)
    requires SameShapes(s, t) && ReposOk(s) && t.Keys <= s.Keys
    ensures ReposOk(t) && (LinksOk(s) ==> LinksOk(t))
  {
    ShapesKeepLinks(s, t);
    ReposStayOk(s, t);
    if LinksOk(s) { SameLinksStayOk(s, t); }
  }

  lemma ClubsStay(s: State, t: State)
    requires SameClubs(s, t)
    ensures GroupsStay(s, t)
  {
    forall u, g | MemberOf(s, u, g) ensures MemberOf(t, u, g) { assert ClubOf(t, u) == ClubOf(s, u); }
  }

  /** Storing an object that no relation knows. */
  lemma StoreKeeps(s: State, x: Id, rec: Record)
    requires Consistent(s) && ReposOk(s) && GroupsOk(s) && x !in s && x != NO_ID && ScanLinkCreation.Bare(rec)
    requires rec.PartyRec? ==>
      match rec.partyKind case UserKind(_, groups) => groups == [] case GroupKind(users) => users == []
    ensures var t := s[x := rec]; Consistent(t) && ReposOk(t) && GroupsOk(t) && Keeps(s, t, {x})
  {
    ScanLinkCreation.StoreBareSafe(s, x, rec);
    StoreKeepsGroups(s, x, rec);
    if LinksOk(s) { ScanLinkCreation.StoreBareLinks(s, x, rec); }
    StoreSeen(s, x, rec);
  }

  lemma StoreSeen(s: State, x: Id, rec: Record)
    requires x !in s && !rec.EntryRec?
    ensures SameEntries(s, s[x := rec]) && GroupsStay(s, s[x := rec])
  {
    forall u, g | MemberOf(s, u, g) ensures MemberOf(s[x := rec], u, g) { }
  }

  // ----- Realm membership -----

  /** Everything but realm membership. */
  ghost predicate RestOk(s: State) { Consistent(s) && ReposOk(s) && TreeOk(s) && GroupsOk(s) && NO_ID !in s }

  lemma QuietRest(s: State, t: State, handed: set<Id>)
    requires RestOk(s) && Quiet(s, t) && SameTree(s, t) && SameClubs(s, t)
    ensures RestOk(t) && Keeps(s, t, handed)
  {
    QuietOk(s, t);
    SameTreeOk(s, t);
    SameClubsOk(s, t);
    ClubsStay(s, t);
  }

  lemma WithUsersQuiet(s: State, r: Id, ids: seq<Id>)
    requires IsRealm(s, r)
    ensures var t := WithUsers(s, r, ids); Quiet(s, t) && SameTree(s, t) && SameClubs(s, t)
  {
    WithUsersAccess(s, r, ids);
  }

  lemma WithUsersAccess(s: State, r: Id, ids: seq<Id>)
    requires IsRealm(s, r)
    ensures SameAccess(s, WithUsers(s, r, ids))
  {
  }

  lemma InRealmQuiet(s: State, u: Id, r: Id)
    requires IsUser(s, u)
    ensures var t := s[u := InRealm(s[u], r)]; Quiet(s, t) && SameTree(s, t) && SameClubs(s, t)
  {
  }

  /** A realm's list changes, and then a user's realm. */
  lemma ChangeMemberKeeps(s: State, r: Id, ids: seq<Id>, u: Id, realmId: Id, handed: set<Id>)
    requires RestOk(s) && IsRealm(s, r) && IsUser(s, u)
    ensures var t := WithUsers(s, r, ids)[u := InRealm(s[u], realmId)]; RestOk(t) && Keeps(s, t, handed)
  {
    var s1 := WithUsers(s, r, ids);
    WithUsersQuiet(s, r, ids);
    QuietRest(s, s1, handed);
    assert s1[u] == s[u];
    InRealmQuiet(s1, u, realmId);
    QuietRest(s1, s1[u := InRealm(s1[u], realmId)], handed);
    KeepsTwice(s, s1, s1[u := InRealm(s1[u], realmId)], handed);
  }

  lemma NothingKept(s: State, handed: set<Id>)
    ensures Keeps(s, s, handed)
  {
  }

  lemma AddUserKeeps(s: State, r: Id, u: Id, handed: set<Id>)
    requires RestOk(s) && IsRealm(s, r)
    ensures var t := AddUserId(s, r, u).state; RestOk(t) && Keeps(s, t, handed)
  {
    NothingKept(s, handed);
    if AddUserId(s, r, u).ok { ChangeMemberKeeps(s, r, s[r].resourceKind.userObjIds + [u], u, r, handed); }
  }

  lemma RemoveUserKeeps(s: State, r: Id, u: Id, handed: set<Id>)
    requires RestOk(s) && IsRealm(s, r)
    ensures var t := RemoveUserId(s, r, u).state; RestOk(t) && Keeps(s, t, handed)
  {
    NothingKept(s, handed);
    if RemoveUserId(s, r, u).ok { ChangeMemberKeeps(s, r, RemoveFrom(u, s[r].resourceKind.userObjIds), u, NO_ID, handed); }
  }

  lemma CreateUserKeeps(s: State, r: Id, login: string, name: string, newId: Id)
    requires RestOk(s) && IsRealm(s, r) && newId !in s && newId != NO_ID
    ensures var t := CreateUser(s, r, login, name, newId).state; RestOk(t) && Keeps(s, t, {newId})
  {
    var rec := NewUserRec(r, login, name);
    var s1 := s[newId := rec];
    StoreKeeps(s, newId, rec);
    StoreKeepsTree(s, newId, rec);
    CreateUserLists(s, r, login, name, newId);
    WithUsersQuiet(s1, r, s[r].resourceKind.userObjIds + [newId]);
    QuietRest(s1, WithUsers(s1, r, s[r].resourceKind.userObjIds + [newId]), {newId});
    KeepsTwice(s, s1, WithUsers(s1, r, s[r].resourceKind.userObjIds + [newId]), {newId});
  }

  lemma MoveUserKeeps(s: State, u: Id, b: Id, handed: set<Id>)
    requires RestOk(s)
    ensures var t := MoveUser(s, u, b).state; RestOk(t) && Keeps(s, t, handed)
  {
    NothingKept(s, handed);
    if IsRealm(s, b) && IsUser(s, u) && IsRealm(s, s[u].realmId) && s[u].realmId != b {
      var t := RemoveUserId(s, s[u].realmId, u).state;
      RemoveUserKeeps(s, s[u].realmId, u, handed);
      if IsRealm(t, b) {
        AddUserKeeps(t, b, u, handed);
        KeepsTwice(s, t, AddUserId(t, b, u).state, handed);
      }
    }
  }

  lemma MemberStepKeepsRest(s: State, op: MemberOp, newId: Id)
    requires RestOk(s) && newId !in s && newId != NO_ID
    ensures var t := MemberStep(s, op, newId).state; RestOk(t) && Keeps(s, t, {newId})
  {
    NothingKept(s, {newId});
    match op
    case NewRealm(n) =>
      var rec := ResourceRec(n, NO_ID, [], RealmKind([], [], []));
      StoreKeeps(s, newId, rec);
      StoreKeepsTree(s, newId, rec);
    case NewUser(r, login, n) => if IsRealm(s, r) { CreateUserKeeps(s, r, login, n, newId); }
    case AddToRealm(r, u) => if IsRealm(s, r) { AddUserKeeps(s, r, u, {newId}); }
    case RemoveFromRealm(r, u) => if IsRealm(s, r) { RemoveUserKeeps(s, r, u, {newId}); }
    case Move(u, b) => MoveUserKeeps(s, u, b, {newId});
  }

  // ----- The tree -----

  /** Everything but the tree. */
  ghost predicate BranchesOk(s: State) { Consistent(s) && ReposOk(s) && MembersOk(s) && GroupsOk(s) }

  lemma QuietBranches(s: State, t: State, handed: set<Id>)
    requires BranchesOk(s) && Quiet(s, t) && SameFolk(s, t) && SameClubs(s, t)
    ensures BranchesOk(t) && Keeps(s, t, handed)
  {
    QuietOk(s, t);
    SameFolkOk(s, t);
    SameClubsOk(s, t);
    ClubsStay(s, t);
  }

  lemma StoreKeepsBranches(s: State, x: Id, rec: Record)
    requires BranchesOk(s) && x !in s && x != NO_ID && ScanLinkCreation.Bare(rec)
    requires match rec
             case ResourceRec(_, _, _, k) => !k.RealmKind?
             case PartyRec(_, _, _, _, k) => k == GroupKind([])
             case _ => true
    ensures BranchesOk(s[x := rec]) && Keeps(s, s[x := rec], {x})
  {
    StoreKeeps(s, x, rec);
    SameFolkOk(s, s[x := rec]);
  }

  lemma WithReposQuiet(s: State, r: Id, ids: seq<Id>)
    requires IsRealm(s, r)
    ensures var t := WithRepos(s, r, ids); Quiet(s, t) && SameFolk(s, t) && SameClubs(s, t)
  {
  }

  lemma WithGroupsQuiet(s: State, r: Id, ids: seq<Id>)
    requires IsRealm(s, r)
    ensures var t := WithGroups(s, r, ids); Quiet(s, t) && SameFolk(s, t) && SameClubs(s, t)
  {
  }

  lemma WithFilesQuiet(s: State, r: Id, ids: seq<Id>)
    requires IsRepo(s, r)
    ensures var t := WithRepoKind(s, r, s[r].resourceKind.(dockerfileIds := ids)); Quiet(s, t) && SameFolk(s, t) && SameClubs(s, t)
  {
  }

  lemma CreateRepoKeeps(s: State, r: Id, name: string, prefix: string, prefixConforms: bool, nameConforms: bool, newId: Id)
    requires BranchesOk(s) && newId !in s && newId != NO_ID
    ensures var t := CreateRepo(s, r, name, prefix, prefixConforms, nameConforms, newId).state;
      BranchesOk(t) && Keeps(s, t, {newId})
  {
    NothingKept(s, {newId});
    if IsRealm(s, r) {
      var chosen := RepoName(s, r, name, prefix, prefixConforms);
      if chosen.Ok? {
        var s1 := s[newId := NewRepoRec(chosen.value, r)];
        var t := WithRepos(s1, r, s[r].resourceKind.repoIds + [newId]);
        StoreKeepsBranches(s, newId, s1[newId]);
        WithReposQuiet(s1, r, s[r].resourceKind.repoIds + [newId]);
        QuietBranches(s1, t, {newId});
        KeepsTwice(s, s1, t, {newId});
      }
    }
  }

  lemma CreateGroupKeeps(s: State, r: Id, name: string, newId: Id)
    requires BranchesOk(s) && newId !in s && newId != NO_ID
    ensures var t := CreateGroup(s, r, name, newId).state; BranchesOk(t) && Keeps(s, t, {newId})
  {
    NothingKept(s, {newId});
    if IsRealm(s, r) {
      var s1 := s[newId := PartyRec(name, r, true, [], GroupKind([]))];
      var t := WithGroups(s1, r, s[r].resourceKind.groupIds + [newId]);
      StoreKeepsBranches(s, newId, s1[newId]);
      WithGroupsQuiet(s1, r, s[r].resourceKind.groupIds + [newId]);
      QuietBranches(s1, t, {newId});
      KeepsTwice(s, s1, t, {newId});
    }
  }

  lemma CreateDockerfileKeeps(s: State, r: Id, name: string, newId: Id)
    requires BranchesOk(s) && newId !in s && newId != NO_ID
    ensures var t := CreateDockerfile(s, r, name, newId).state; BranchesOk(t) && Keeps(s, t, {newId})
  {
    var s1 := s[newId := ResourceRec(name, r, [], DockerfileKind)];
    StoreKeepsBranches(s, newId, s1[newId]);
    if IsRepo(s1, r) {
      var ids := s1[r].resourceKind.dockerfileIds + [newId];
      var t := WithRepoKind(s1, r, s1[r].resourceKind.(dockerfileIds := ids));
      WithFilesQuiet(s1, r, ids);
      QuietBranches(s1, t, {newId});
      KeepsTwice(s, s1, t, {newId});
    }
  }

  // ----- Group membership -----

  lemma WithMembersQuiet(s: State, g: Id, ids: seq<Id>)
    requires IsGroup(s, g)
    ensures var t := WithMembers(s, g, ids); Quiet(s, t) && SameTree(s, t) && SameFolk(s, t)
  {
    WithMembersRights(s, g, ids);
    WithMembersSeen(s, g, ids);
  }

  lemma WithMembersSeen(s: State, g: Id, ids: seq<Id>)
    requires IsGroup(s, g)
    ensures var t := WithMembers(s, g, ids); SameShapes(s, t) && SameTree(s, t) && SameFolk(s, t) && t.Keys == s.Keys
  {
  }

  lemma WithGroupIdsQuiet(s: State, u: Id, ids: seq<Id>)
    requires IsUser(s, u)
    ensures var t := WithGroupIds(s, u, ids); Quiet(s, t) && SameTree(s, t) && SameFolk(s, t)
  {
    WithGroupIdsRights(s, u, ids);
    WithGroupIdsSeen(s, u, ids);
  }

  lemma WithGroupIdsSeen(s: State, u: Id, ids: seq<Id>)
    requires IsUser(s, u)
    ensures var t := WithGroupIds(s, u, ids); SameShapes(s, t) && SameTree(s, t) && SameFolk(s, t) && t.Keys == s.Keys
  {
  }

  /** Everything but group membership. */
  ghost predicate ClubRestOk(s: State) { Consistent(s) && ReposOk(s) && MembersOk(s) && TreeOk(s) }

  lemma QuietClubRest(s: State, t: State)
    requires ClubRestOk(s) && Quiet(s, t) && SameTree(s, t) && SameFolk(s, t)
    ensures ClubRestOk(t) && SameEntries(s, t) && (LinksOk(s) ==> LinksOk(t)) && t.Keys == s.Keys
  {
    QuietOk(s, t);
    SameTreeOk(s, t);
    SameFolkOk(s, t);
  }

  lemma AddMemberQuiet(s: State, g: Id, u: Id)
    requires ClubRestOk(s) && IsGroup(s, g)
    ensures var t := AddMember(s, g, u).state;
      ClubRestOk(t) && SameEntries(s, t) && (LinksOk(s) ==> LinksOk(t)) && t.Keys == s.Keys
  {
    if IsUser(s, u) && u !in s[g].partyKind.userObjIds {
      var s1 := WithMembers(s, g, s[g].partyKind.userObjIds + [u]);
      WithMembersQuiet(s, g, s[g].partyKind.userObjIds + [u]);
      QuietClubRest(s, s1);
      assert IsUser(s1, u);
      if AddGroupId(s1, u, g).ok {
        WithGroupIdsQuiet(s1, u, s1[u].partyKind.groupIds + [g]);
        QuietClubRest(s1, AddGroupId(s1, u, g).state);
      }
    }
  }

  lemma AddToGroupKeeps(s: State, g: Id, u: Id, handed: set<Id>)
    requires RelationsOk(s)
    ensures var t := AddGroupUser(s, g, u).state; RelationsOk(t) && Keeps(s, t, handed)
  {
    NothingKept(s, handed);
    if IsGroup(s, g) {
      HandlerAddsOnce(s, g, u);
      AddMemberMeans(s, g, u);
      AddMemberQuiet(s, g, u);
    }
  }

  lemma RemoveFromGroupKeeps(s: State, g: Id, u: Id, handed: set<Id>)
    requires RelationsOk(s)
    ensures var t := RemGroupUser(s, g, u).state; RelationsOk(t) && Keeps(s, t, handed)
  {
    NothingKept(s, handed);
    if IsGroup(s, g) && u in s[g].partyKind.userObjIds {
      RemoveMemberMeans(s, g, u);
      WithMembersQuiet(s, g, RemoveFrom(u, s[g].partyKind.userObjIds));
      QuietClubRest(s, RemoveMember(s, g, u).state);
    }
  }

  // ----- Deactivation -----

  /** Deactivation succeeds for every realm of a store that is in step, and keeps it in step. */
  lemma DeactivateKeeps(s: State, r: Id, handed: set<Id>)
    requires RelationsOk(s)
    ensures var o := Deactivate(s, r);
      (o.ok <==> IsRealm(s, r)) && (!o.ok ==> o.state == s) && RelationsOk(o.state) && Keeps(s, o.state, handed)
  {
    NothingKept(s, handed);
    DeactivateMeans(s, r);
    if IsRealm(s, r) {
      TreeMeans(s, r);
      DeactivateSkeletons(s, r);
      SkeletonsKeep(s, Deactivate(s, r).state);
      DeactivateKeepsTheRest(s, r);
      DeactivateEntries(s, r);
    }
  }

  lemma DeactivateSkeletons(s: State, r: Id)
    requires Linked(s) && RealmLive(s, r)
    ensures SameSkeletons(s, Deactivate(s, r).state) && Deactivate(s, r).state.Keys <= s.Keys
  {
    var u := Cleared(s, Subtree(s, r));
    var t := Inactive(u, MembersOf(s, r));
    DeactivateMeans(s, r);
    ClearedSkeletons(s, Subtree(s, r));
    InactiveSkeletons(u, MembersOf(s, r));
    SkeletonsTwice(s, u, t);
  }

  lemma DeactivateEntries(s: State, r: Id)
    requires Linked(s) && RealmLive(s, r)
    ensures SameEntries(s, Deactivate(s, r).state)
  {
    var u := Cleared(s, Subtree(s, r));
    DeactivateMeans(s, r);
    forall x | IsEntry(Inactive(u, MembersOf(s, r)), x) ensures IsEntry(s, x) && Inactive(u, MembersOf(s, r))[x] == s[x] {
      assert IsEntry(u, x);
    }
  }

  /** What the access operations and deactivation keep of the other relations. */
  lemma SkeletonsKeep(s: State, t: State)
    requires RelationsOk(s) && SameSkeletons(s, t) && NO_ID !in t
    ensures ReposOk(t) && MembersOk(t) && TreeOk(t) && GroupsOk(t) && (LinksOk(s) ==> LinksOk(t)) && GroupsStay(s, t)
  {
    SkeletonsKeepShapes(s, t);
    SkeletonsKeepRest(s, t);
    ShapesKeepLinks(s, t);
    ReposStayOk(s, t);
    if LinksOk(s) { SameLinksStayOk(s, t); }
    SameTreeOk(s, t);
    SameFolkOk(s, t);
    SameClubsOk(s, t);
    ClubsStay(s, t);
  }

  // ----- Links -----

  /** The ids a link operation hands out. */
  function HandedBy(op: ScanLinkRuns.LinkOp, newId: Id): set<Id> {
    if op.NewEvent? then EventIds(op.values, newId) else {newId}
  }

  lemma MakingAside(s: State, op: ScanLinkRuns.LinkOp, newId: Id)
    requires !op.Store? && ScanLinkRuns.Makes(op) && ScanLinkRuns.FreshIds(s, op, newId)
    ensures Aside(s, ScanLinkRuns.LinkStep(s, op, newId).state, HandedBy(op, newId))
  {
    match op
    case NewConfig(n, r, ps, f) => CreateConfigAside(s, n, r, ps, f, newId);
    case NewFlag(n, r) => CreateFlagAside(s, n, r, newId);
    case NewImage(n, r) => CreateImageAside(s, n, r, newId);
    case NewEvent(c, u, live, vs) => CreateEventAside(s, c, u, live, vs, newId);
    case NewParameter(c) => CreateParameterAside(s, c, newId);
  }

  lemma LinkAside(s: State, op: ScanLinkRuns.LinkOp, newId: Id)
    requires !op.Store? && ScanLinkRuns.FreshIds(s, op, newId)
    ensures Aside(s, ScanLinkRuns.LinkStep(s, op, newId).state, HandedBy(op, newId))
  {
    assert Aside(s, s, {newId});
    if ScanLinkRuns.Makes(op) { MakingAside(s, op, newId); return; }
    match op
    case SetFlag(c, f) => if IsScanConfig(s, c) { SetFlagIdAside(s, c, f, {newId}); }
    case AddImage(c, i) => if IsScanConfig(s, c) { AddImageAside(s, c, i, {newId}); }
    case RemImage(c, i) => if IsScanConfig(s, c) { RemImageAside(s, c, i, {newId}); }
    case DropConfig(c) => if IsScanConfig(s, c) && IsRepo(s, s[c].parentId) { DeleteConfigAside(s, s[c].parentId, c, {newId}); }
    case DropFlag(f, removed) =>
      if IsFlag(s, f) && IsRepo(s, s[f].parentId) { DeleteFlagAside(s, s[f].parentId, f, removed, {newId}); }
    case DropImage(i, deleted) =>
      if IsImage(s, i) && IsRepo(s, s[i].parentId) { DeleteImageAside(s, s[i].parentId, i, deleted, {newId}); }
    case DropEvent(e) => DeleteEventAside(s, e, {newId});
  }

  lemma LinkKeeps(s: State, op: ScanLinkRuns.LinkOp, newId: Id)
    requires RelationsOk(s) && !op.Store? && ScanLinkRuns.FreshIds(s, op, newId)
    ensures var t := ScanLinkRuns.LinkStep(s, op, newId).state;
      && RelationsOk(t) && SameEntries(s, t) && GroupsStay(s, t) && t.Keys <= s.Keys + HandedBy(op, newId)
  {
    var t := ScanLinkRuns.LinkStep(s, op, newId).state;
    ScanLinkRuns.LinkStepSafe(s, op, newId);
    LinkAside(s, op, newId);
    SameTreeOk(s, t);
    assert NO_ID !in HandedBy(op, newId);
    SameFolkOk(s, t);
    SameClubsOk(s, t);
    ClubsStay(s, t);
  }

  // ----- One operation -----

  /** The ids the operation hands out. */
  function Handed(op: StoreOp, newId: Id): set<Id> { if op.OnLinks? then HandedBy(op.link, newId) else {newId} }

  /** The operation makes a repo, a dockerfile or a group. */
  predicate Grows(op: StoreOp) { op.NewRepo? || op.NewDockerfile? || op.NewGroup? }

  lemma GrowthKeeps(s: State, op: StoreOp, newId: Id)
    requires RelationsOk(s) && newId !in s && newId != NO_ID && Grows(op)
    ensures RelationsOk(Result(s, op, newId)) && Keeps(s, Result(s, op, newId), {newId})
  {
    match op
    case NewRepo(r, n, p, pc, nc) => CreateRepoKeeps(s, r, n, p, pc, nc, newId); CreateRepoMeans(s, r, n, p, pc, nc, newId);
    case NewDockerfile(r, n) => CreateDockerfileKeeps(s, r, n, newId); CreateDockerfileMeans(s, r, n, newId);
    case NewGroup(r, n) => CreateGroupKeeps(s, r, n, newId); CreateGroupMeans(s, r, n, newId);
  }

  lemma ChangeKeeps(s: State, op: StoreOp, newId: Id)
    requires RelationsOk(s) && newId !in s && newId != NO_ID && !op.OnAccess? && !op.OnLinks? && !Grows(op)
    ensures RelationsOk(Result(s, op, newId)) && Keeps(s, Result(s, op, newId), {newId})
  {
    match op
    case OnMembers(m) => MemberStepKeepsRest(s, m, newId); MemberStepKeeps(s, m, newId);
    case AddToGroup(g, u) => AddToGroupKeeps(s, g, u, {newId});
    case RemoveFromGroup(g, u) => RemoveFromGroupKeeps(s, g, u, {newId});
    case DeactivateRealm(r) => DeactivateKeeps(s, r, {newId});
  }

  /** Every operation but the access and link operations keeps every relation and the links. */
  lemma ResultKeeps(s: State, op: StoreOp, newId: Id)
    requires RelationsOk(s) && newId !in s && newId != NO_ID && !op.OnAccess? && !op.OnLinks?
    ensures RelationsOk(Result(s, op, newId)) && Keeps(s, Result(s, op, newId), {newId})
  {
    if Grows(op) { GrowthKeeps(s, op, newId); } else { ChangeKeeps(s, op, newId); }
  }

  /** Every operation but the access operations keeps every relation, makes no entry, and takes no group from a user. */
  lemma ResultOk(s: State, op: StoreOp, newId: Id)
    requires RelationsOk(s) && newId !in s && newId != NO_ID && !op.OnAccess?
    requires op.OnLinks? ==> !op.link.Store? && ScanLinkRuns.FreshIds(s, op.link, newId)
    ensures var t := Result(s, op, newId);
      RelationsOk(t) && SameEntries(s, t) && GroupsStay(s, t) && t.Keys <= s.Keys + Handed(op, newId)
  {
    if op.OnLinks? { LinkKeeps(s, op.link, newId); } else { ResultKeeps(s, op, newId); }
  }

  lemma AfterOk(w: AccessRuns.World, t: State, handed: set<Id>, lastId: Id)
    requires AccessRuns.WorldOk(w) && Consistent(t) && t.Keys <= w.state.Keys + handed && SameEntries(w.state, t)
    requires w.lastId <= lastId && forall x :: x in handed ==> x <= lastId
    ensures AccessRuns.WorldOk(After(w, t, lastId))
  {
    var v := After(w, t, lastId);
    forall x, y | Shares(v.cells, x, y) ensures x == y { assert Shares(w.cells, x, y); }
    forall x ensures x in v.cells <==> IsEntry(t, x) { }
  }

  lemma HandedBelow(w: AccessRuns.World, op: StoreOp)
    requires StoreOk(w) && MayDo(w, op)
    ensures w.lastId <= NewIdOf(w, op) && forall x :: x in Handed(op, NewIdOf(w, op)) ==> x <= NewIdOf(w, op)
  {
  }

  lemma OtherKeeps(w: AccessRuns.World, op: StoreOp)
    requires StoreOk(w) && MayDo(w, op) && !op.OnAccess?
    ensures var v := Step(w, op); StoreOk(v) && SameEntries(w.state, v.state) && GroupsStay(w.state, v.state)
  {
    IdsAreNew(w, op);
    HandedBelow(w, op);
    ResultOk(w.state, op, NewIdOf(w, op));
    AfterOk(w, Result(w.state, op, NewIdOf(w, op)), Handed(op, NewIdOf(w, op)), NewIdOf(w, op));
  }

  /** The access operations keep every other relation, and the links. */
  lemma AccessKeeps(w: AccessRuns.World, op: AccessRuns.Op)
    requires StoreOk(w) && AccessRuns.MayDo(w, op) && !op.NewResource? && !op.NewParty?
    ensures var v := AccessRuns.Step(w, op);
      StoreOk(v) && (LinksOk(w.state) ==> LinksOk(v.state)) && GroupsStay(w.state, v.state)
  {
    AccessRuns.StepKeeps(w, op);
    AccessSkeletons(w, op);
    AccessKeepsIds(w, op);
    SkeletonsKeep(w.state, AccessRuns.Step(w, op).state);
  }

  lemma AccessSkeletons(w: AccessRuns.World, op: AccessRuns.Op)
    requires AccessRuns.WorldOk(w) && AccessRuns.MayDo(w, op) && !op.NewResource? && !op.NewParty?
    ensures SameSkeletons(w.state, AccessRuns.Step(w, op).state)
  {
    var s, newId := w.state, w.lastId + 1;
    match op
    case CreateOp(r, p, m, c) => CreateEntrySkeletons(s, r, p, m, newId);
    case SetOp(r, p, m, c) => SetSkeletons(s, r, p, m, newId);
    case AddOp(r, p, m, c) => AddSkeletons(s, w.cells, r, p, m, newId);
    case DeleteOp(r, p) => DeleteAccessSkeletons(s, r, p, s[r].acl, 0);
    case DeleteAllOp(r) => DeleteAllSkeletons(s, r);
  }

  lemma DeleteAllSkeletons(s: State, r: Id)
    requires Linked(s) && IsResource(s, r)
    ensures SameSkeletons(s, DeleteAllAccess(s, r).state)
  {
    DeleteAllAccessClears(s, r);
    ClearedSkeletons(s, {r});
  }

  lemma SetSkeletons(s: State, r: Id, p: Id, mask: seq<bool>, newId: Id)
    requires IsParty(s, p) && newId !in s
    ensures SameSkeletons(s, SetAccess(s, r, p, mask, newId).state)
  {
    match FindEntry(s, s[p].acl, r, false)
    case Failed =>
    case Absent => CreateEntrySkeletons(s, r, p, mask, newId);
    case Found(e) => if IsEntry(s, e) { NewMaskSkeletons(s, e, mask); }
  }

  lemma AddSkeletons<Cell>(s: State, cells: map<Id, Cell>, r: Id, p: Id, mask: seq<bool>, newId: Id)
    requires IsParty(s, p) && Sized(s) && |mask| == MASK_LENGTH && newId !in s
    ensures SameSkeletons(s, AddAccess(s, cells, r, p, mask, newId).state)
  {
    match FindEntry(s, s[p].acl, r, false)
    case Failed =>
    case Absent => CreateEntrySkeletons(s, r, p, mask, newId);
    case Found(e) => OrSharedSkeletons(s, cells, e, mask);
  }

  /** The access operations hand out no id twice, and never the empty one. */
  lemma AccessKeepsIds(w: AccessRuns.World, op: AccessRuns.Op)
    requires AccessRuns.WorldOk(w) && AccessRuns.MayDo(w, op) && !op.NewResource? && !op.NewParty?
    requires w.lastId >= 0 && NO_ID !in w.state
    ensures var v := AccessRuns.Step(w, op); v.lastId >= w.lastId && NO_ID !in v.state
  {
    match op
    case CreateOp(r, p, m, c) =>
    case SetOp(r, p, m, c) => AccessRuns.SearchAgrees(w, r, p);
    case AddOp(r, p, m, c) => AccessRuns.SearchAgrees(w, r, p);
    case DeleteOp(r, p) => AccessRuns.DeletedKeys(w.state, r, p, w.state[r].acl, 0);
    case DeleteAllOp(r) => DeleteAllAccessClears(w.state, r);
  }

  /** Every operation, whether it succeeds or fails, keeps the store in step, and takes no group from a user. */
  lemma StepKeeps(w: AccessRuns.World, op: StoreOp)
    requires StoreOk(w) && MayDo(w, op)
    ensures StoreOk(Step(w, op)) && GroupsStay(w.state, Step(w, op).state)
  {
    if op.OnAccess? { AccessKeeps(w, op.access); } else { OtherKeeps(w, op); }
  }

  /** The operation keeps the links of scan configs in step. */
  ghost predicate Harmless(s: State, op: StoreOp) { op.OnLinks? ==> ScanLinkRuns.Harmless(s, op.link) }

  /** In a store whose links are in step, they stay so exactly when the operation is harmless. */
  lemma StepLinksIff(w: AccessRuns.World, op: StoreOp)
    requires StoreOk(w) && MayDo(w, op) && LinksOk(w.state)
    ensures LinksOk(Step(w, op).state) <==> Harmless(w.state, op)
  {
    IdsAreNew(w, op);
    if op.OnAccess? {
      AccessKeeps(w, op.access);
    } else if op.OnLinks? {
      ScanLinkRuns.LinkStepIff(w.state, op.link, NewIdOf(w, op));
    } else {
      ResultKeeps(w.state, op, NewIdOf(w, op));
    }
  }

  /** Only access operations give rights: after any other operation, nobody may do what it could not do before. */
  lemma OnlyAccessGrants(w: AccessRuns.World, op: StoreOp, p: Id, r: Id, k: nat)
    requires StoreOk(w) && MayDo(w, op) && !op.OnAccess?
    ensures StoreOk(Step(w, op))
    ensures Grants(MatrixOf(Step(w, op).state), p, r, k) ==> Grants(MatrixOf(w.state), p, r, k)
  {
    OtherKeeps(w, op);
    GrantsNoMore(w.state, Step(w, op).state, p, r, k);
  }

  lemma GrantsNoMore(s: State, t: State, p: Id, r: Id, k: nat)
    requires OneEntryPerPair(s) && OneEntryPerPair(t) && SameEntries(s, t)
    ensures Grants(MatrixOf(t), p, r, k) ==> Grants(MatrixOf(s), p, r, k)
  {
    if Grants(MatrixOf(t), p, r, k) {
      RightIsGrant(t, p, r, k);
      var e :| Joins(t, e, p, r) && k < |t[e].mask| && t[e].mask[k];
      assert Joins(s, e, p, r);
      RightIsGrant(s, p, r, k);
    }
  }

  // ----- Runs -----

  ghost predicate Run(w: AccessRuns.World, ops: seq<StoreOp>, v: AccessRuns.World)
    requires StoreOk(w)
    decreases |ops|
  {
    if ops == [] then w == v
    else MayDo(w, ops[0]) && (StepKeeps(w, ops[0]); Run(Step(w, ops[0]), ops[1..], v))
  }

  /** Over every run of all operations, failed calls included, the store stays in step, and no user loses a group. */
  lemma {:induction false} RunKeepsStore(w: AccessRuns.World, ops: seq<StoreOp>, v: AccessRuns.World)
    requires StoreOk(w) && Run(w, ops, v)
    ensures StoreOk(v) && GroupsStay(w.state, v.state)
    decreases |ops|
  {
    if ops != [] {
      StepKeeps(w, ops[0]);
      RunKeepsStore(Step(w, ops[0]), ops[1..], v);
      GroupsStayTwice(w.state, Step(w, ops[0]).state, v.state);
    }
  }

  lemma GroupsStayTwice(s: State, t: State, u: State)
    requires GroupsStay(s, t) && GroupsStay(t, u)
    ensures GroupsStay(s, u)
  {
    forall x, g | MemberOf(s, x, g) ensures MemberOf(u, x, g) { assert MemberOf(t, x, g); }
  }

  /** The run is one of harmless operations. */
  ghost predicate HarmlessRun(w: AccessRuns.World, ops: seq<StoreOp>, v: AccessRuns.World)
    requires StoreOk(w) && Run(w, ops, v)
    decreases |ops|
  {
    ops == []
    || (Harmless(w.state, ops[0]) && (StepKeeps(w, ops[0]); HarmlessRun(Step(w, ops[0]), ops[1..], v)))
  }

  /** Over every run of harmless operations the links of scan configs stay in step as well. */
  lemma {:induction false} RunKeepsLinks(w: AccessRuns.World, ops: seq<StoreOp>, v: AccessRuns.World)
    requires StoreOk(w) && LinksOk(w.state) && Run(w, ops, v) && HarmlessRun(w, ops, v)
    ensures StoreOk(v) && LinksOk(v.state)
    decreases |ops|
  {
    if ops != [] {
      StepKeeps(w, ops[0]);
      StepLinksIff(w, ops[0]);
      RunKeepsLinks(Step(w, ops[0]), ops[1..], v);
    }
  }

  /** A store with no objects. */
  const EMPTY: AccessRuns.World := AccessRuns.World(map[], map[], 0)

  lemma EmptyBranches()
    ensures MembersOk(map[]) && TreeOk(map[]) && GroupsOk(map[])
  {
  }

  lemma EmptyOk()
    ensures StoreOk(EMPTY) && LinksOk(EMPTY.state)
  {
    AccessRuns.EmptyWorldOk();
    ScanLinkRuns.EmptyStoreOk();
    EmptyBranches();
  }

  /** After deactivation the ids that a user and a resource of the realm refer to are live. */
  lemma DeactivatedRefs(s: State, realmId: Id, u: Id, x: Id)
    requires RelationsOk(s) && IsRealm(s, realmId) && Beneath(s, realmId, x)
    ensures var o := Deactivate(s, realmId); o.ok && TreeParents(s, realmId) && (IsUser(o.state, u) ==> RefsLive(o.state, u, x))
  {
    var t := Deactivate(s, realmId).state;
    DeactivateKeeps(s, realmId, {});
    TreeMeans(s, realmId);
    DeactivatedTree(s, realmId, x);
    if s[x].parentId != NO_ID { DeactivatedTree(s, realmId, s[x].parentId); }
    if IsUser(t, u) {
      forall i | 0 <= i < |t[u].partyKind.groupIds| ensures IsParty(t, t[u].partyKind.groupIds[i]) {
        assert MemberOf(t, u, t[u].partyKind.groupIds[i]);
      }
    }
  }

  /**
  In a store that is in step, deactivation of a realm succeeds and leaves nobody authorized for anything in it: every
  user that exists is refused, and a request without one fails.
  */
  lemma DeactivationComplete(s: State, realmId: Id, users: map<string, Id>, login: Option<string>, x: Id, k: nat)
    requires RelationsOk(s) && k < MASK_LENGTH && IsRealm(s, realmId) && Beneath(s, realmId, x)
    ensures var o := Deactivate(s, realmId);
      && o.ok && RelationsOk(o.state)
      && Authorized(o.state, users, login, Single(k), x)
         == if login.Some? && login.value in users && IsUser(o.state, users[login.value]) then Refused else Failure
  {
    DeactivateKeeps(s, realmId, {});
    DeactivatedRefs(s, realmId, if login.Some? && login.value in users then users[login.value] else NO_ID, x);
    NobodyAuthorized(s, realmId, users, login, x, k);
  }

  /**
  So in every state that can be reached from the empty store, failed calls included: dbDeactivateRealm succeeds for every
  realm, and after it every user is refused everything in the realm.
  */
  lemma ReachableDeactivation(ops: seq<StoreOp>, v: AccessRuns.World, realmId: Id, users: map<string, Id>,
                              login: Option<string>, x: Id, k: nat)
    requires (EmptyOk(); Run(EMPTY, ops, v)) && k < MASK_LENGTH
    requires IsRealm(v.state, realmId) && Beneath(v.state, realmId, x)
    ensures Deactivate(v.state, realmId).ok
    ensures Sized(Deactivate(v.state, realmId).state)
    ensures Authorized(Deactivate(v.state, realmId).state, users, login, Single(k), x)
         == if login.Some? && login.value in users && IsUser(Deactivate(v.state, realmId).state, users[login.value])
            then Refused else Failure
  {
    EmptyOk();
    RunKeepsStore(EMPTY, ops, v);
    DeactivationComplete(v.state, realmId, users, login, x, k);
  }
}
