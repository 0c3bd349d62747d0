/**
What the operations on one kind of relation leave alone: access lists, links of scan configs, realm membership, and the
tree of realms, repos and dockerfiles.
*/
module StoreFrames {
  import opened Basics
  import opened ObjectStore
  import opened Access
  import opened ScanLinks
  import opened ScanLinkProofs
  import opened ScanDeletion
  import opened Membership
  import opened GroupMembership
  import opened Deactivation
  import opened ResourceTree

  // ----- The part of a record that has to do with membership -----

  datatype Folk = RealmFolk(userObjIds: seq<Id>) | UserFolk(name: string, realmId: Id) | NoFolk

  function FolkOf(s: State, x: Id): Folk {
    if IsRealm(s, x) then RealmFolk(s[x].resourceKind.userObjIds)
    else if IsUser(s, x) then UserFolk(s[x].name, s[x].realmId)
    else NoFolk
  }

  ghost predicate SameFolk(s: State, t: State) {
    forall x {:trigger FolkOf(t, x)} :: FolkOf(t, x) == FolkOf(s, x)
  }

  lemma SameFolkOk(s: State, t: State)
    requires MembersOk(s) && SameFolk(s, t) && NO_ID !in t
    ensures MembersOk(t)
  {
    forall r, u ensures ListsUser(t, r, u) <==> ListsUser(s, r, u) { assert FolkOf(t, r) == FolkOf(s, r); }
    forall r, u | ListsUser(t, r, u) ensures BelongsTo(t, u, r) {
      assert ListsUser(s, r, u) && BelongsTo(s, u, r) && FolkOf(t, u) == FolkOf(s, u);
    }
    forall r | IsRealm(t, r) ensures NoDup(t[r].resourceKind.userObjIds) { assert FolkOf(t, r) == FolkOf(s, r) && IsRealm(s, r); }
    forall r, u, v | ListsUser(t, r, u) && ListsUser(t, r, v) && t[u].name == t[v].name ensures u == v {
      assert ListsUser(s, r, u) && ListsUser(s, r, v) && BelongsTo(s, u, r) && BelongsTo(s, v, r);
      assert FolkOf(t, u) == FolkOf(s, u) && FolkOf(t, v) == FolkOf(s, v);
    }
  }

  // ----- The part of a record that has to do with groups -----

  datatype Club = UserClub(groupIds: seq<Id>) | GroupClub(userObjIds: seq<Id>) | NoClub

  function ClubOf(s: State, x: Id): Club {
    if IsUser(s, x) then UserClub(s[x].partyKind.groupIds)
    else if IsGroup(s, x) then GroupClub(s[x].partyKind.userObjIds)
    else NoClub
  }

  ghost predicate SameClubs(s: State, t: State) {
    forall x {:trigger ClubOf(t, x)} :: ClubOf(t, x) == ClubOf(s, x)
  }

  lemma SameClubsOk(s: State, t: State)
    requires GroupsOk(s) && SameClubs(s, t)
    ensures GroupsOk(t)
  {
    forall g, u ensures HasMember(t, g, u) <==> HasMember(s, g, u) { assert ClubOf(t, g) == ClubOf(s, g); }
    forall g, u ensures MemberOf(t, u, g) <==> MemberOf(s, u, g) { assert ClubOf(t, u) == ClubOf(s, u); }
    forall g, u | MemberOf(t, u, g) ensures IsGroup(t, g) { assert MemberOf(s, u, g) && ClubOf(t, g) == ClubOf(s, g); }
    forall g | IsGroup(t, g) ensures NoDup(t[g].partyKind.userObjIds) { assert ClubOf(t, g) == ClubOf(s, g) && IsGroup(s, g); }
    forall u | IsUser(t, u) ensures NoDup(t[u].partyKind.groupIds) { assert ClubOf(t, u) == ClubOf(s, u) && IsUser(s, u); }
  }

  /** A new object that is in no group and has no member. */
  lemma StoreKeepsGroups(s: State, x: Id, rec: Record)
    requires GroupsOk(s) && x !in s
    requires rec.PartyRec? ==>
      match rec.partyKind case UserKind(_, groups) => groups == [] case GroupKind(users) => users == []
    ensures GroupsOk(s[x := rec])
  {
    var t := s[x := rec];
    forall g, u ensures HasMember(t, g, u) <==> HasMember(s, g, u) { }
    forall g, u ensures MemberOf(t, u, g) <==> MemberOf(s, u, g) { }
    forall g, u | MemberOf(t, u, g) ensures IsGroup(t, g) { assert MemberOf(s, u, g); }
    forall g | IsGroup(t, g) ensures NoDup(t[g].partyKind.userObjIds) { assert g != x ==> IsGroup(s, g); }
    forall u | IsUser(t, u) ensures NoDup(t[u].partyKind.groupIds) { assert u != x ==> IsUser(s, u); }
  }

  // ----- Access operations and deactivation: only access lists, entries and activity change -----

  /** The record without its access list and without its activity. */
  function Skeleton(rec: Record): Record {
    match rec
    case ResourceRec(n, p, _, k) => ResourceRec(n, p, [], k)
    case PartyRec(n, r, _, _, k) => PartyRec(n, r, true, [], k)
    case _ => rec
  }

  /** The skeleton of a live object that is no entry. */
  function SkeletonOf(s: State, x: Id): Option<Record> {
    if x in s && !s[x].EntryRec? then Some(Skeleton(s[x])) else None
  }

  ghost predicate SameSkeletons(s: State, t: State) {
    forall x {:trigger SkeletonOf(t, x)} :: SkeletonOf(t, x) == SkeletonOf(s, x)
  }

  lemma SkeletonsTwice(s: State, t: State, u: State)
    requires SameSkeletons(s, t) && SameSkeletons(t, u)
    ensures SameSkeletons(s, u)
  {
    forall x ensures SkeletonOf(u, x) == SkeletonOf(s, x) { assert SkeletonOf(u, x) == SkeletonOf(t, x); }
  }

  /** Skeletons decide what the links, the tree, realms and groups see of a record. */
  lemma SkeletonsKeepShapes(s: State, t: State)
    requires SameSkeletons(s, t)
    ensures SameShapes(s, t)
  {
    forall x ensures ShapeOf(t, x) == ShapeOf(s, x) { assert SkeletonOf(t, x) == SkeletonOf(s, x); }
  }

  lemma SkeletonsKeepRest(s: State, t: State)
    requires SameSkeletons(s, t)
    ensures SameTree(s, t) && SameFolk(s, t) && SameClubs(s, t)
  {
    forall x ensures NodeOf(t, x) == NodeOf(s, x) { assert SkeletonOf(t, x) == SkeletonOf(s, x); }
    forall x ensures FolkOf(t, x) == FolkOf(s, x) { assert SkeletonOf(t, x) == SkeletonOf(s, x); }
    forall x ensures ClubOf(t, x) == ClubOf(s, x) { assert SkeletonOf(t, x) == SkeletonOf(s, x); }
  }

  lemma CreateEntrySkeletons(s: State, resourceId: Id, partyId: Id, mask: seq<bool>, newId: Id)
    requires newId !in s
    ensures SameSkeletons(s, CreateEntry(s, resourceId, partyId, mask, newId).state)
  {
  }

  lemma NewMaskSkeletons(s: State, e: Id, mask: seq<bool>)
    requires IsEntry(s, e)
    ensures SameSkeletons(s, s[e := s[e].(mask := mask)])
  {
  }

  lemma OrSharedSkeletons<Cell>(s: State, cells: map<Id, Cell>, e: Id, mask: seq<bool>)
    requires Sized(s) && |mask| == MASK_LENGTH
    ensures SameSkeletons(s, OrShared(s, cells, e, mask))
  {
  }

  lemma DeleteTurnSkeletons(s: State, resourceId: Id, partyId: Id, e: Id, i: nat)
    requires IsResource(s, resourceId) && IsParty(s, partyId)
    ensures SameSkeletons(s, DeleteAccessTurn(s, resourceId, partyId, e, i).state)
  {
  }

  lemma {:induction false} DeleteAccessSkeletons(s: State, resourceId: Id, partyId: Id, ids: seq<Id>, i: nat)
    requires IsResource(s, resourceId) && IsParty(s, partyId) && i <= |ids|
    ensures SameSkeletons(s, DeleteAccessFrom(s, resourceId, partyId, ids, i).state)
    decreases |ids| - i
  {
    if i < |ids| {
      var o := DeleteAccessTurn(s, resourceId, partyId, ids[i], i);
      DeleteTurnSkeletons(s, resourceId, partyId, ids[i], i);
      if o.ok {
        DeleteAccessSkeletons(o.state, resourceId, partyId, ids, i + 1);
        SkeletonsTwice(s, o.state, DeleteAccessFrom(o.state, resourceId, partyId, ids, i + 1).state);
      }
    }
  }

  lemma ClearedSkeletons(s: State, rs: set<Id>)
    ensures SameSkeletons(s, Cleared(s, rs))
  {
  }

  lemma InactiveSkeletons(s: State, ids: set<Id>)
    ensures SameSkeletons(s, Inactive(s, ids))
  {
  }

  // ----- Link operations: neither the tree nor membership changes, and no entry is made -----

  /** Only the objects in `handed` may be new, and the entries that are left are as they were. */
  ghost predicate Aside(s: State, t: State, handed: set<Id>) {
    && SameTree(s, t) && SameFolk(s, t) && SameClubs(s, t) && t.Keys <= s.Keys + handed
    && (forall x {:trigger IsEntry(t, x)} :: IsEntry(t, x) ==> IsEntry(s, x) && t[x] == s[x])
  }

  lemma AsideTwice(s: State, t: State, u: State, handed: set<Id>)
    requires Aside(s, t, handed) && Aside(t, u, handed)
    ensures Aside(s, u, handed)
  {
    forall x ensures NodeOf(u, x) == NodeOf(s, x) { assert NodeOf(u, x) == NodeOf(t, x); }
    forall x ensures FolkOf(u, x) == FolkOf(s, x) { assert FolkOf(u, x) == FolkOf(t, x); }
    forall x ensures ClubOf(u, x) == ClubOf(s, x) { assert ClubOf(u, x) == ClubOf(t, x); }
  }

  /** A resource below the repos, a scan event or a parameter value. */
  predicate Leaf(rec: Record) {
    match rec
    case ResourceRec(_, _, _, k) => k.DockerImageKind? || k.ScanConfigKind? || k.FlagKind?
    case ScanEventRec(_, _) => true
    case ParameterRec => true
    case _ => false
  }

  /** A leaf is stored, changed or deleted. */
  lemma StoreLeaf(s: State, x: Id, rec: Record, handed: set<Id>)
    requires Leaf(rec) && if x in s then Leaf(s[x]) else x in handed
    ensures Aside(s, s[x := rec], handed)
  {
  }

  lemma DeleteLeaf(s: State, x: Id, handed: set<Id>)
    requires x in s ==> Leaf(s[x])
    ensures Aside(s, s - {x}, handed)
  {
  }

  /** The repo's list of configs, flags or images changes, and then a leaf is deleted. */
  lemma RepoAside(s: State, t: State, r: Id, k: ResourceKind, handed: set<Id>)
    requires Aside(s, t, handed) && IsRepo(t, r) && k.RepoKind? && k.dockerfileIds == t[r].resourceKind.dockerfileIds
    ensures Aside(s, WithRepoKind(t, r, k), handed)
  {
    OneRepoAside(t, r, k, handed);
    AsideTwice(s, t, WithRepoKind(t, r, k), handed);
  }

  lemma OneRepoAside(s: State, r: Id, k: ResourceKind, handed: set<Id>)
    requires IsRepo(s, r) && k.RepoKind? && k.dockerfileIds == s[r].resourceKind.dockerfileIds
    ensures Aside(s, WithRepoKind(s, r, k), handed)
  {
  }

  /** One more change of a leaf. */
  lemma LeafAside(s: State, t: State, x: Id, rec: Record, handed: set<Id>)
    requires Aside(s, t, handed) && x in t && Leaf(t[x]) && Leaf(rec)
    ensures Aside(s, t[x := rec], handed)
  {
    StoreLeaf(t, x, rec, handed);
    AsideTwice(s, t, t[x := rec], handed);
  }

  lemma {:induction false} DetachAllAside(s: State, ids: seq<Id>, handed: set<Id>)
    ensures Aside(s, DetachAll(s, ids).state, handed)
  {
    if ids != [] && IsEntry(s, ids[0]) && IsParty(s, s[ids[0]].partyId) {
      var t := Detach(s, s[ids[0]].partyId, ids[0]);
      assert Aside(s, t, handed);
      DetachAllAside(t, ids[1..], handed);
      AsideTwice(s, t, DetachAll(t, ids[1..]).state, handed);
    }
  }

  lemma DeleteAllAccessAside(s: State, r: Id, handed: set<Id>)
    requires IsResource(s, r)
    ensures Aside(s, DeleteAllAccess(s, r).state, handed)
  {
    var o := DetachAll(s, s[r].acl);
    DetachAllAside(s, s[r].acl, handed);
    if o.ok {
      var t := o.state[r := WithAcl(o.state[r], [])];
      NoAclAside(o.state, r, handed);
      AsideTwice(s, o.state, t, handed);
    }
  }

  lemma NoAclAside(s: State, r: Id, handed: set<Id>)
    requires IsResource(s, r)
    ensures Aside(s, s[r := WithAcl(s[r], [])], handed)
  {
  }

  // The operations one by one.

  lemma CreateConfigAside(s: State, name: string, repoId: Id, parameterIds: seq<Id>, f: Id, newId: Id)
    requires newId !in s
    ensures Aside(s, CreateScanConfig(s, name, repoId, parameterIds, f, newId).state, {newId})
  {
    var s1 := s[newId := ResourceRec(name, repoId, [], ScanConfigKind(parameterIds, f, [], []))];
    StoreLeaf(s, newId, s1[newId], {newId});
    if IsRepo(s, repoId) && (f == NO_ID || IsFlag(s1, f)) {
      var s2 := if f != NO_ID then AddRef(s1, f, newId) else s1;
      if f != NO_ID { LeafAside(s, s1, f, s2[f], {newId}); }
      var k := s2[repoId].resourceKind;
      RepoAside(s, s2, repoId, k.(scanConfigIds := k.scanConfigIds + [newId]), {newId});
    }
  }

  lemma CreateFlagAside(s: State, name: string, repoId: Id, newId: Id)
    requires newId !in s
    ensures Aside(s, CreateFlag(s, name, repoId, newId).state, {newId})
  {
    var s1 := s[newId := ResourceRec(name, repoId, [], FlagKind([]))];
    StoreLeaf(s, newId, s1[newId], {newId});
    if IsRepo(s1, repoId) {
      var k := s1[repoId].resourceKind;
      RepoAside(s, s1, repoId, k.(flagIds := k.flagIds + [newId]), {newId});
    }
  }

  lemma CreateImageAside(s: State, name: string, repoId: Id, newId: Id)
    requires newId !in s
    ensures Aside(s, CreateDockerImage(s, name, repoId, newId).state, {newId})
  {
    var s1 := s[newId := ResourceRec(name, repoId, [], DockerImageKind([]))];
    StoreLeaf(s, newId, s1[newId], {newId});
    if IsRepo(s, repoId) {
      var k := s1[repoId].resourceKind;
      RepoAside(s, s1, repoId, k.(dockerImageIds := k.dockerImageIds + [newId]), {newId});
    }
  }

  /** The ids that the operation hands out. */
  function EventIds(values: seq<Id>, newId: Id): set<Id> { {newId} + set v | v in values }

  lemma ValuesAside(s: State, values: seq<Id>, newId: Id)
    requires FreshValues(s, values, newId)
    ensures Aside(s, WithValues(s, values), EventIds(values, newId))
  {
    var t := WithValues(s, values);
    forall x ensures NodeOf(t, x) == NodeOf(s, x) && FolkOf(t, x) == FolkOf(s, x) { }
    forall x ensures ClubOf(t, x) == ClubOf(s, x) { }
    forall x | IsEntry(t, x) ensures IsEntry(s, x) && t[x] == s[x] { }
  }

  lemma CreateEventAside(s: State, c: Id, u: Id, versionLive: bool, values: seq<Id>, newId: Id)
    requires newId !in s && FreshValues(s, values, newId)
    ensures Aside(s, CreateScanEvent(s, c, u, versionLive, values, newId).state, EventIds(values, newId))
  {
    var ids := EventIds(values, newId);
    var s1 := WithValues(s, values);
    ValuesAside(s, values, newId);
    if IsScanConfig(s1, c) {
      var s2 := s1[newId := ScanEventRec(c, values)];
      StoreLeaf(s1, newId, s2[newId], ids);
      AsideTwice(s, s1, s2, ids);
      LeafAside(s, s2, c, WithEvents(s2, c, s2[c].resourceKind.scanEventIds + [newId])[c], ids);
    }
  }

  lemma CreateParameterAside(s: State, c: Id, newId: Id)
    requires newId !in s
    ensures Aside(s, CreateParameter(s, c, newId).state, {newId})
  {
    var s1 := s[newId := ParameterRec];
    StoreLeaf(s, newId, ParameterRec, {newId});
    if IsScanConfig(s, c) {
      LeafAside(s, s1, c, WithParameters(s1, c, s[c].resourceKind.parameterValueIds + [newId])[c], {newId});
    }
  }

  lemma SetFlagIdAside(s: State, c: Id, f: Id, handed: set<Id>)
    requires IsScanConfig(s, c)
    ensures Aside(s, SetFlagId(s, c, f).state, handed)
  {
    var g := s[c].resourceKind.flagId;
    if g != f && IsFlag(s, f) && (g == NO_ID || IsFlag(s, g)) {
      var s1 := if g != NO_ID then RemoveRef(s, g, c) else s;
      if g != NO_ID { StoreLeaf(s, g, s1[g], handed); }
      var s2 := WithFlag(s1, c, f);
      LeafAside(s, s1, c, s2[c], handed);
      LeafAside(s, s2, f, AddRef(s2, f, c)[f], handed);
    }
  }

  lemma AddImageAside(s: State, c: Id, i: Id, handed: set<Id>)
    requires IsScanConfig(s, c)
    ensures Aside(s, AddDockerImage(s, c, i).state, handed)
  {
    var s1 := WithImages(s, c, AddUniquely(i, s[c].resourceKind.dockerImageIdsThatUse));
    StoreLeaf(s, c, s1[c], handed);
    if IsImage(s1, i) { LeafAside(s, s1, i, AddDockerImage(s, c, i).state[i], handed); }
  }

  lemma RemImageAside(s: State, c: Id, i: Id, handed: set<Id>)
    requires IsScanConfig(s, c)
    ensures Aside(s, RemDockerImage(s, c, i).state, handed)
  {
    var s1 := WithImages(s, c, RemoveFrom(i, s[c].resourceKind.dockerImageIdsThatUse));
    StoreLeaf(s, c, s1[c], handed);
    if IsImage(s1, i) { LeafAside(s, s1, i, RemDockerImage(s, c, i).state[i], handed); }
  }

  lemma {:induction false} NullifyAside(s: State, events: seq<Id>, handed: set<Id>)
    ensures Aside(s, NullifyEvents(s, events).state, handed)
  {
    if events != [] && IsScanEvent(s, events[0]) {
      var s1 := s[events[0] := s[events[0]].(scanConfigId := NO_ID)];
      StoreLeaf(s, events[0], s1[events[0]], handed);
      NullifyAside(s1, events[1..], handed);
      AsideTwice(s, s1, NullifyEvents(s1, events[1..]).state, handed);
    }
  }

  lemma {:induction false} DeleteParametersAside(s: State, ids: seq<Id>, handed: set<Id>)
    ensures Aside(s, DeleteParameters(s, ids).state, handed)
  {
    if ids != [] && IsParameter(s, ids[0]) {
      var s1 := s - {ids[0]};
      DeleteLeaf(s, ids[0], handed);
      DeleteParametersAside(s1, ids[1..], handed);
      AsideTwice(s, s1, DeleteParameters(s1, ids[1..]).state, handed);
    }
  }

  lemma AllParametersAside(s: State, c: Id, handed: set<Id>)
    requires IsScanConfig(s, c)
    ensures Aside(s, DeleteAllParameters(s, c), handed)
  {
    var o := DeleteParameters(s, s[c].resourceKind.parameterValueIds);
    DeleteParametersAside(s, s[c].resourceKind.parameterValueIds, handed);
    assert IsResource(s, c);
    if o.ok { LeafAside(s, o.state, c, WithParameters(o.state, c, [])[c], handed); }
  }

  lemma {:induction false} UnlinkImagesAside(s: State, c: Id, images: seq<Id>, handed: set<Id>)
    requires IsScanConfig(s, c)
    ensures Aside(s, UnlinkImages(s, c, images).state, handed)
  {
    if images != [] {
      var o := RemDockerImage(s, c, images[0]);
      RemImageAside(s, c, images[0], handed);
      if o.ok {
        UnlinkImagesAside(o.state, c, images[1..], handed);
        AsideTwice(s, o.state, UnlinkImages(o.state, c, images[1..]).state, handed);
      }
    }
  }

  lemma UnlinkAside(s: State, c: Id, handed: set<Id>)
    requires IsScanConfig(s, c)
    ensures Aside(s, Unlink(s, c).state, handed)
  {
    var f := s[c].resourceKind.flagId;
    if f == NO_ID || IsFlag(s, f) {
      var s1 := if f != NO_ID then RemoveRef(s, f, c) else s;
      if f != NO_ID { StoreLeaf(s, f, s1[f], handed); }
      UnlinkImagesAside(s1, c, s1[c].resourceKind.dockerImageIdsThatUse, handed);
      AsideTwice(s, s1, Unlink(s, c).state, handed);
    }
  }

  /** The end of every deletion of a resource: the access list and the object. */
  lemma DropAside(s: State, t: State, x: Id, handed: set<Id>)
    requires Aside(s, t, handed) && IsResource(t, x) && Leaf(t[x])
    ensures Aside(s, DeleteAllAccess(t, x).state, handed) && Aside(s, DeleteAllAccess(t, x).state - {x}, handed)
  {
    var u := DeleteAllAccess(t, x).state;
    DeleteAllAccessAside(t, x, handed);
    AsideTwice(s, t, u, handed);
    DeleteLeaf(u, x, handed);
    AsideTwice(s, u, u - {x}, handed);
  }

  lemma DeleteConfigAside(s: State, repoId: Id, c: Id, handed: set<Id>)
    requires IsRepo(s, repoId) && IsScanConfig(s, c)
    ensures Aside(s, DeleteScanConfig(s, repoId, c).state, handed)
  {
    var o1 := NullifyEvents(s, s[c].resourceKind.scanEventIds);
    NullifyAside(s, s[c].resourceKind.scanEventIds, handed);
    assert IsResource(s, c) && IsResource(s, repoId);
    if o1.ok {
      var s2 := DeleteAllParameters(o1.state, c);
      AllParametersAside(o1.state, c, handed);
      AsideTwice(s, o1.state, s2, handed);
      var o3 := Unlink(s2, c);
      UnlinkAside(s2, c, handed);
      AsideTwice(s, s2, o3.state, handed);
      if o3.ok {
        var k := o3.state[repoId].resourceKind;
        var k4 := k.(scanConfigIds := RemoveFrom(c, k.scanConfigIds));
        RepoAside(s, o3.state, repoId, k4, handed);
        DropAside(s, WithRepoKind(o3.state, repoId, k4), c, handed);
      }
    }
  }

  lemma DeleteFlagAside(s: State, repoId: Id, f: Id, fileRemoved: bool, handed: set<Id>)
    requires IsRepo(s, repoId) && IsFlag(s, f)
    ensures Aside(s, DeleteFlag(s, repoId, f, fileRemoved).state, handed)
  {
    var k := s[repoId].resourceKind;
    RepoAside(s, s, repoId, k.(flagIds := RemoveFrom(f, k.flagIds)), handed);
    DropAside(s, WithRepoKind(s, repoId, k.(flagIds := RemoveFrom(f, k.flagIds))), f, handed);
  }

  lemma {:induction false} UnlinkConfigsAside(s: State, i: Id, configs: seq<Id>, handed: set<Id>)
    ensures Aside(s, UnlinkConfigs(s, i, configs).state, handed)
    ensures IsImage(s, i) ==> IsImage(UnlinkConfigs(s, i, configs).state, i)
  {
    if configs != [] && IsScanConfig(s, configs[0]) {
      var o := RemDockerImage(s, configs[0], i);
      RemImageAside(s, configs[0], i, handed);
      if o.ok {
        UnlinkConfigsAside(o.state, i, configs[1..], handed);
        AsideTwice(s, o.state, UnlinkConfigs(o.state, i, configs[1..]).state, handed);
      }
    }
  }

  lemma DeleteImageAside(s: State, repoId: Id, i: Id, versionsDeleted: bool, handed: set<Id>)
    requires IsRepo(s, repoId) && IsImage(s, i)
    ensures Aside(s, DeleteDockerImage(s, repoId, i, versionsDeleted).state, handed)
  {
    var o1 := DeleteAllAccess(s, i);
    DeleteAllAccessAside(s, i, handed);
    assert IsResource(s, repoId) && IsResource(s, i) && IsRepo(o1.state, repoId) && IsImage(o1.state, i);
    if o1.ok {
      var configs := s[i].resourceKind.scanConfigsToUse;
      var o2 := UnlinkConfigs(o1.state, i, configs);
      UnlinkConfigsAside(o1.state, i, configs, handed);
      AsideTwice(s, o1.state, o2.state, handed);
      if o2.ok {
        var k := o2.state[repoId].resourceKind;
        var t := WithRepoKind(o2.state, repoId, k.(dockerImageIds := RemoveFrom(i, k.dockerImageIds)));
        RepoAside(s, o2.state, repoId, k.(dockerImageIds := RemoveFrom(i, k.dockerImageIds)), handed);
        DeleteLeaf(t, i, handed);
        AsideTwice(s, t, t - {i}, handed);
      }
    }
  }

  lemma DeleteEventAside(s: State, e: Id, handed: set<Id>)
    ensures Aside(s, DeleteScanEvent(s, e).state, handed)
  {
    if IsScanEvent(s, e) && IsScanConfig(s, s[e].scanConfigId) {
      var s1 := DropEvent(s, e);
      var o := DeleteParameters(s1, s[e].valueIds);
      StoreLeaf(s, s[e].scanConfigId, s1[s[e].scanConfigId], handed);
      DeleteParametersAside(s1, s[e].valueIds, handed);
      AsideTwice(s, s1, o.state, handed);
      if o.ok {
        DeleteParametersSame(s1, s[e].valueIds);
        assert IsScanEvent(s1, e) && IsScanEvent(o.state, e);
        DeleteLeaf(o.state, e, handed);
        AsideTwice(s, o.state, o.state - {e}, handed);
      }
    }
  }
}
