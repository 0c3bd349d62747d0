/** Creation of scan configs, flags, images, events and parameter values: when it succeeds, and what it keeps. */
module ScanLinkCreation {
  import opened Basics
  import opened ObjectStore
  import opened Access
  import opened AccessProofs
  import opened Names
  import opened ScanLinks
  import opened ScanLinkProofs
  import opened ScanDeletion
  import opened ScanRemoval

  /** A new object that no link and no access list knows. */
  predicate Bare(rec: Record) {
    match rec
    case ResourceRec(_, _, acl, k) => acl == [] && BareKind(k)
    case PartyRec(_, _, _, acl, _) => acl == []
    case EntryRec(_, _, _) => false
    case ScanEventRec(c, values) => c == NO_ID && values == []
    case ParameterRec => true
  }

  predicate BareKind(k: ResourceKind) {
    match k
    case RepoKind(_, images, configs, flags) => images == [] && configs == [] && flags == []
    case DockerImageKind(configs) => configs == []
    case ScanConfigKind(values, flag, events, images) => values == [] && flag == NO_ID && events == [] && images == []
    case FlagKind(configs) => configs == []
    case _ => true
  }

  lemma StoreBareTies(s: State, x: Id, rec: Record)
    requires TiesOk(s) && x !in s && x != NO_ID && Bare(rec)
    ensures TiesOk(s[x := rec])
  {
    StoreBareFlags(s, x, rec);
    StoreBareImages(s, x, rec);
    StoreBareEvents(s, x, rec);
    StoreBareRepos(s, x, rec);
  }

  lemma StoreBareLinks(s: State, x: Id, rec: Record)
    requires LinksOk(s) && x !in s && x != NO_ID && Bare(rec)
    ensures LinksOk(s[x := rec])
  {
    StoreBareTies(s, x, rec);
    StoreBareValues(s, x, rec);
  }

  lemma StoreBareValues(s: State, x: Id, rec: Record)
    requires x !in s && Bare(rec)
    ensures SameValues(s, s[x := rec]) && (ValuesOk(s) ==> ValuesOk(s[x := rec]))
  {
    forall y ensures HeldBy(s[x := rec], y) == HeldBy(s, y) { }
    if ValuesOk(s) { ValuesStayOk(s, s[x := rec]); }
  }

  lemma StoreBareFlags(s: State, x: Id, rec: Record)
    requires FlagsOk(s) && x !in s && Bare(rec)
    ensures FlagsOk(s[x := rec])
  {
    var t := s[x := rec];
    assert forall c, f {:trigger UsesFlag(t, c, f)} :: UsesFlag(t, c, f) <==> UsesFlag(s, c, f);
    assert forall c, f {:trigger FlagLists(t, f, c)} :: FlagLists(t, f, c) <==> FlagLists(s, f, c);
    forall f | IsFlag(t, f) ensures NoDup(t[f].resourceKind.usedByScanConfigIds) { assert f != x ==> IsFlag(s, f); }
  }

  lemma StoreBareImages(s: State, x: Id, rec: Record)
    requires ImagesOk(s) && x !in s && Bare(rec)
    ensures ImagesOk(s[x := rec])
  {
    var t := s[x := rec];
    assert forall c, i {:trigger UsesImage(t, c, i)} :: UsesImage(t, c, i) <==> UsesImage(s, c, i);
    assert forall c, i {:trigger ImageLists(t, i, c)} :: ImageLists(t, i, c) <==> ImageLists(s, i, c);
    forall i | IsImage(t, i) ensures NoDup(t[i].resourceKind.scanConfigsToUse) { assert i != x ==> IsImage(s, i); }
    forall c | IsScanConfig(t, c) ensures NoDup(t[c].resourceKind.dockerImageIdsThatUse) { assert c != x ==> IsScanConfig(s, c); }
  }

  lemma StoreBareEvents(s: State, x: Id, rec: Record)
    requires EventsOk(s) && x !in s && Bare(rec)
    ensures EventsOk(s[x := rec])
  {
    var t := s[x := rec];
    assert forall c, e {:trigger EventNames(t, e, c)} :: EventNames(t, e, c) <==> EventNames(s, e, c);
    assert forall c, e {:trigger ConfigListsEvent(t, c, e)} :: ConfigListsEvent(t, c, e) <==> ConfigListsEvent(s, c, e);
    forall c | IsScanConfig(t, c) ensures NoDup(t[c].resourceKind.scanEventIds) { assert c != x ==> IsScanConfig(s, c); }
  }

  lemma StoreBareRepos(s: State, x: Id, rec: Record)
    requires ReposOk(s) && x !in s && Bare(rec)
    ensures ReposOk(s[x := rec])
  {
    var t := s[x := rec];
    forall r, y | RepoLists(t, r, y)
      ensures && IsResource(t, y) && t[y].parentId == r
              && (y in t[r].resourceKind.scanConfigIds ==> IsScanConfig(t, y))
              && (y in t[r].resourceKind.flagIds ==> IsFlag(t, y))
              && (y in t[r].resourceKind.dockerImageIds ==> IsImage(t, y))
    {
      assert RepoLists(s, r, y);
    }
    forall r | IsRepo(t, r)
      ensures && NoDup(t[r].resourceKind.scanConfigIds) && NoDup(t[r].resourceKind.flagIds)
              && NoDup(t[r].resourceKind.dockerImageIds)
    {
      assert r != x ==> IsRepo(s, r);
    }
  }

  /** A new object with no permissions changes no permission. */
  lemma StoreBareAccess(s: State, x: Id, rec: Record)
    requires Consistent(s) && x !in s && Bare(rec)
    ensures Consistent(s[x := rec]) && MatrixOf(s[x := rec]) == MatrixOf(s)
  {
    var t := s[x := rec];
    StoreBareLinked(s, x, rec);
    assert EntriesWithout(s, t, {});
    SameEntriesMatrix(s, t);
  }

  lemma StoreBareLinked(s: State, x: Id, rec: Record)
    requires Linked(s) && x !in s && Bare(rec)
    ensures Linked(s[x := rec])
  {
    var t := s[x := rec];
    assert forall y, e {:trigger InAcl(t, y, e)} :: InAcl(t, y, e) <==> InAcl(s, y, e);
    forall e | IsEntry(t, e)
      ensures && IsResource(t, t[e].resourceId) && InAcl(t, t[e].resourceId, e)
              && IsParty(t, t[e].partyId) && InAcl(t, t[e].partyId, e)
    {
      assert IsEntry(s, e) && InAcl(s, s[e].resourceId, e) && InAcl(s, s[e].partyId, e);
    }
    forall y | HasAcl(t, y) ensures NoDup(t[y].acl) { assert y != x ==> HasAcl(s, y); }
  }

  /** A new object leaves repos and access lists in step. */
  lemma StoreBareSafe(s: State, x: Id, rec: Record)
    requires ReposOk(s) && Consistent(s) && x !in s && Bare(rec)
    ensures var t := s[x := rec]; ReposOk(t) && Consistent(t) && MatrixOf(t) == MatrixOf(s)
  {
    StoreBareRepos(s, x, rec);
    StoreBareAccess(s, x, rec);
  }

  // ----- The repo takes a new child into its list -----

  /** The list is as it was, or has gained `x` where that is allowed. */
  ghost predicate Gains(a: seq<Id>, b: seq<Id>, x: Id, allowed: bool) {
    b == a || (allowed && NoDup(b) && forall y :: y in b ==> y in a || y == x)
  }

  lemma RepoAdds(s: State, repoId: Id, x: Id, k: ResourceKind)
    requires ReposOk(s) && IsRepo(s, repoId) && IsResource(s, x) && s[x].parentId == repoId && k.RepoKind?
    requires Gains(s[repoId].resourceKind.scanConfigIds, k.scanConfigIds, x, IsScanConfig(s, x))
    requires Gains(s[repoId].resourceKind.flagIds, k.flagIds, x, IsFlag(s, x))
    requires Gains(s[repoId].resourceKind.dockerImageIds, k.dockerImageIds, x, IsImage(s, x))
    ensures ReposOk(WithRepoKind(s, repoId, k))
  {
    var t := WithRepoKind(s, repoId, k);
    forall r, y | RepoLists(t, r, y)
      ensures && IsResource(t, y) && t[y].parentId == r
              && (y in t[r].resourceKind.scanConfigIds ==> IsScanConfig(t, y))
              && (y in t[r].resourceKind.flagIds ==> IsFlag(t, y))
              && (y in t[r].resourceKind.dockerImageIds ==> IsImage(t, y))
    {
      assert IsRepo(t, r);
      var listed := RepoLists(s, r, y);
    }
    forall r | IsRepo(t, r)
      ensures && NoDup(t[r].resourceKind.scanConfigIds) && NoDup(t[r].resourceKind.flagIds)
              && NoDup(t[r].resourceKind.dockerImageIds)
    {
      assert IsRepo(s, r);
    }
  }

  /** The repo's new list keeps repos and access lists in step, and changes no other link. */
  lemma RepoTakes(s: State, repoId: Id, x: Id, k: ResourceKind)
    requires Consistent(s)
    requires ReposOk(s) && IsRepo(s, repoId) && IsResource(s, x) && s[x].parentId == repoId && k.RepoKind?
    requires Gains(s[repoId].resourceKind.scanConfigIds, k.scanConfigIds, x, IsScanConfig(s, x))
    requires Gains(s[repoId].resourceKind.flagIds, k.flagIds, x, IsFlag(s, x))
    requires Gains(s[repoId].resourceKind.dockerImageIds, k.dockerImageIds, x, IsImage(s, x))
    ensures var t := WithRepoKind(s, repoId, k);
      ReposOk(t) && Consistent(t) && MatrixOf(t) == MatrixOf(s) && SameLinks(s, t)
  {
    RepoAdds(s, repoId, x, k);
    WithRepoKindSame(s, repoId, k);
    SameAccessConsistent(s, WithRepoKind(s, repoId, k));
  }

  /** A new id is in no list of a repo. */
  lemma NewIdUnlisted(s: State, r: Id, x: Id)
    requires ReposOk(s) && x !in s
    ensures !RepoLists(s, r, x)
  {
  }

  /** What a repo lists is live and of the right type. */
  lemma ListedLive(s: State, r: Id)
    requires ReposOk(s) && IsRepo(s, r)
    ensures MembersLive(s, s[r].resourceKind.scanConfigIds, ScanConfigMember)
    ensures MembersLive(s, s[r].resourceKind.flagIds, FlagMember)
    ensures MembersLive(s, s[r].resourceKind.dockerImageIds, ImageMember)
  {
    forall x | x in s[r].resourceKind.scanConfigIds ensures IsScanConfig(s, x) { assert RepoLists(s, r, x); }
    forall x | x in s[r].resourceKind.flagIds ensures IsFlag(s, x) { assert RepoLists(s, r, x); }
    forall x | x in s[r].resourceKind.dockerImageIds ensures IsImage(s, x) { assert RepoLists(s, r, x); }
  }

  /**
  `t` has one new resource `x`, which the lists of repo `r` have gained, and which flag `f` lists, unless `f` is no id.
  All other records, and the rest of those two, are as they were.
  */
  ghost predicate RepoGains(s: State, t: State, r: Id, f: Id, x: Id, rec: Record) {
    && t.Keys == s.Keys + {x} && t[x] == rec
    && (forall y {:trigger t[y]} :: y in s && y != r && y != f ==> t[y] == s[y])
    && IsRepo(s, r) && IsRepo(t, r) && SameButKind(s[r], t[r]) && t[r].resourceKind.dockerfileIds == s[r].resourceKind.dockerfileIds
    && (forall p, y {:trigger RepoLists(t, p, y)} :: RepoLists(t, p, y) <==> RepoLists(s, p, y) || (p == r && y == x))
    && FlagGains(s, t, f, x)
  }

  ghost predicate FlagGains(s: State, t: State, f: Id, x: Id) {
    && (f != NO_ID ==> IsFlag(s, f) && IsFlag(t, f) && SameButKind(s[f], t[f]))
    && (forall c, g {:trigger FlagLists(t, g, c)} :: FlagLists(t, g, c) <==> FlagLists(s, g, c) || (g == f != NO_ID && c == x))
  }

  /** A new resource that no flag lists, at the end of one of the repo's lists. */
  lemma ListGains(s: State, r: Id, x: Id, rec: Record, k: ResourceKind)
    requires IsRepo(s, r) && x !in s && NO_ID !in s && rec.ResourceRec? && BareKind(rec.resourceKind)
    requires rec.resourceKind.FlagKind? || rec.resourceKind.DockerImageKind?
    requires Appended(s[r].resourceKind, k, x)
    ensures RepoGains(s, WithRepoKind(s[x := rec], r, k), r, NO_ID, x, rec)
  {
    var t := WithRepoKind(s[x := rec], r, k);
    assert forall p, y {:trigger RepoLists(t, p, y)} :: RepoLists(t, p, y) <==> RepoLists(s, p, y) || (p == r && y == x);
    assert forall c, g {:trigger FlagLists(t, g, c)} :: FlagLists(t, g, c) <==> FlagLists(s, g, c);
  }

  /** One of the repo's three lists has `x` at its end. */
  ghost predicate Appended(k: ResourceKind, l: ResourceKind, x: Id) {
    && k.RepoKind?
    && (l == k.(flagIds := k.flagIds + [x]) || l == k.(dockerImageIds := k.dockerImageIds + [x])
        || l == k.(scanConfigIds := k.scanConfigIds + [x]))
  }

  // ----- Flags -----

  function ListFlag(s: State, repoId: Id, x: Id): State
    requires IsRepo(s, repoId)
  {
    var k := s[repoId].resourceKind;
    WithRepoKind(s, repoId, k.(flagIds := k.flagIds + [x]))
  }

  lemma ListFlagKeeps(s: State, repoId: Id, x: Id)
    requires ReposOk(s) && Consistent(s) && IsRepo(s, repoId) && IsFlag(s, x) && s[x].parentId == repoId
    requires !RepoLists(s, repoId, x)
    ensures var t := ListFlag(s, repoId, x);
      && ReposOk(t) && Consistent(t) && MatrixOf(t) == MatrixOf(s) && SameLinks(s, t) && t.Keys == s.Keys
      && RepoLists(t, repoId, x) && IsFlag(t, x) && t[x] == s[x]
  {
    var k := s[repoId].resourceKind;
    AppendNoDup(k.flagIds, x);
    RepoTakes(s, repoId, x, k.(flagIds := k.flagIds + [x]));
  }

  /** dbCreateFlag succeeds exactly when the repo is live and has no flag of that name. */
  lemma CreateFlagOkIff(s: State, name: string, repoId: Id, newId: Id)
    requires ReposOk(s) && newId !in s
    ensures var o := CreateFlag(s, name, repoId, newId); var s1 := s[newId := ResourceRec(name, repoId, [], FlagKind([]))];
      && (o.ok <==> IsRepo(s, repoId) && !Taken(s, s[repoId].resourceKind.flagIds, FlagMember, name))
      && (o.ok ==> IsRepo(s1, repoId) && o.state == ListFlag(s1, repoId, newId)) && (!o.ok ==> o.state == s1)
  {
    var rec := ResourceRec(name, repoId, [], FlagKind([]));
    if IsRepo(s, repoId) {
      ListedLive(s, repoId);
      SearchAfterStore(s, newId, rec, s[repoId].resourceKind.flagIds, name, FlagMember);
    }
  }

  /** Whatever the other links are like, dbCreateFlag keeps repos and access lists in step. */
  lemma CreateFlagSafe(s: State, name: string, repoId: Id, newId: Id)
    requires ReposOk(s) && Consistent(s) && newId !in s
    ensures var o := CreateFlag(s, name, repoId, newId);
      && ReposOk(o.state) && Consistent(o.state) && MatrixOf(o.state) == MatrixOf(s)
      && (o.ok ==> RepoLists(o.state, repoId, newId) && IsFlag(o.state, newId) && o.state[newId].name == name)
      && SameLinks(s[newId := ResourceRec(name, repoId, [], FlagKind([]))], o.state)
      && o.state.Keys == s.Keys + {newId}
  {
    var rec := ResourceRec(name, repoId, [], FlagKind([]));
    StoreBareSafe(s, newId, rec);
    CreateFlagOkIff(s, name, repoId, newId);
    NothingDiffers(s[newId := rec]);
    if CreateFlag(s, name, repoId, newId).ok {
      NewIdUnlisted(s, repoId, newId);
      assert s[newId := rec][repoId] == s[repoId];
      ListFlagKeeps(s[newId := rec], repoId, newId);
    }
  }

  /**
  dbCreateFlag keeps the links and the permissions even when it fails half way, when the flag is stored and not listed.
  It succeeds exactly when the repo is live and has no flag of that name; then the repo lists the flag, which has that
  name and that parent and no user, and nothing else has changed.
  */
  lemma CreateFlagMeans(s: State, name: string, repoId: Id, newId: Id)
    requires LinksOk(s) && Consistent(s) && newId !in s && newId != NO_ID
    ensures var o := CreateFlag(s, name, repoId, newId);
      && LinksOk(o.state) && Consistent(o.state) && MatrixOf(o.state) == MatrixOf(s)
      && (o.ok <==> IsRepo(s, repoId) && !Taken(s, s[repoId].resourceKind.flagIds, FlagMember, name))
      && (o.ok ==> RepoGains(s, o.state, repoId, NO_ID, newId, ResourceRec(name, repoId, [], FlagKind([]))))
      && (!o.ok ==> o.state == s[newId := ResourceRec(name, repoId, [], FlagKind([]))])
  {
    var rec := ResourceRec(name, repoId, [], FlagKind([]));
    CreateFlagOkIff(s, name, repoId, newId);
    CreateFlagSafe(s, name, repoId, newId);
    StoreBareLinks(s, newId, rec);
    SameLinksStayOk(s[newId := rec], CreateFlag(s, name, repoId, newId).state);
    if IsRepo(s, repoId) {
      var k := s[repoId].resourceKind;
      ListGains(s, repoId, newId, rec, k.(flagIds := k.flagIds + [newId]));
    }
  }

  // ----- Images -----

  function ListImage(s: State, repoId: Id, x: Id): State
    requires IsRepo(s, repoId)
  {
    var k := s[repoId].resourceKind;
    WithRepoKind(s, repoId, k.(dockerImageIds := k.dockerImageIds + [x]))
  }

  lemma ListImageKeeps(s: State, repoId: Id, x: Id)
    requires ReposOk(s) && Consistent(s) && IsRepo(s, repoId) && IsImage(s, x) && s[x].parentId == repoId
    requires !RepoLists(s, repoId, x)
    ensures var t := ListImage(s, repoId, x);
      && ReposOk(t) && Consistent(t) && MatrixOf(t) == MatrixOf(s) && SameLinks(s, t) && t.Keys == s.Keys
      && RepoLists(t, repoId, x) && IsImage(t, x) && t[x] == s[x]
  {
    var k := s[repoId].resourceKind;
    AppendNoDup(k.dockerImageIds, x);
    RepoTakes(s, repoId, x, k.(dockerImageIds := k.dockerImageIds + [x]));
  }

  /** dbCreateDockerImage succeeds exactly when the repo is live and has no image of that name. */
  lemma CreateImageOkIff(s: State, name: string, repoId: Id, newId: Id)
    requires ReposOk(s) && newId !in s
    ensures var o := CreateDockerImage(s, name, repoId, newId);
      var s1 := s[newId := ResourceRec(name, repoId, [], DockerImageKind([]))];
      && (o.ok <==> IsRepo(s, repoId) && !Taken(s, s[repoId].resourceKind.dockerImageIds, ImageMember, name))
      && (o.ok ==> IsRepo(s1, repoId) && o.state == ListImage(s1, repoId, newId))
      && (!o.ok ==> o.state == if IsRepo(s, repoId) then s1 else s)
  {
    var rec := ResourceRec(name, repoId, [], DockerImageKind([]));
    if IsRepo(s, repoId) {
      ListedLive(s, repoId);
      SearchAfterStore(s, newId, rec, s[repoId].resourceKind.dockerImageIds, name, ImageMember);
    }
  }

  /** Whatever the other links are like, dbCreateDockerImage keeps repos and access lists in step. */
  lemma CreateImageSafe(s: State, name: string, repoId: Id, newId: Id)
    requires ReposOk(s) && Consistent(s) && newId !in s
    ensures var o := CreateDockerImage(s, name, repoId, newId);
      && ReposOk(o.state) && Consistent(o.state) && MatrixOf(o.state) == MatrixOf(s)
      && (o.ok ==> RepoLists(o.state, repoId, newId) && IsImage(o.state, newId) && o.state[newId].name == name)
      && (IsRepo(s, repoId) ==> SameLinks(s[newId := ResourceRec(name, repoId, [], DockerImageKind([]))], o.state)
                                && o.state.Keys == s.Keys + {newId})
  {
    var rec := ResourceRec(name, repoId, [], DockerImageKind([]));
    StoreBareSafe(s, newId, rec);
    CreateImageOkIff(s, name, repoId, newId);
    NothingDiffers(s[newId := rec]);
    if CreateDockerImage(s, name, repoId, newId).ok {
      NewIdUnlisted(s, repoId, newId);
      assert s[newId := rec][repoId] == s[repoId];
      ListImageKeeps(s[newId := rec], repoId, newId);
    }
  }

  /** dbCreateDockerImage, likewise; without a live repo it stores nothing. */
  lemma CreateDockerImageMeans(s: State, name: string, repoId: Id, newId: Id)
    requires LinksOk(s) && Consistent(s) && newId !in s && newId != NO_ID
    ensures var o := CreateDockerImage(s, name, repoId, newId);
      && LinksOk(o.state) && Consistent(o.state) && MatrixOf(o.state) == MatrixOf(s)
      && (o.ok <==> IsRepo(s, repoId) && !Taken(s, s[repoId].resourceKind.dockerImageIds, ImageMember, name))
      && (o.ok ==> RepoGains(s, o.state, repoId, NO_ID, newId, ResourceRec(name, repoId, [], DockerImageKind([]))))
      && (!o.ok ==> o.state == if IsRepo(s, repoId) then s[newId := ResourceRec(name, repoId, [], DockerImageKind([]))] else s)
  {
    var rec := ResourceRec(name, repoId, [], DockerImageKind([]));
    CreateImageOkIff(s, name, repoId, newId);
    CreateImageSafe(s, name, repoId, newId);
    StoreBareLinks(s, newId, rec);
    if IsRepo(s, repoId) {
      var k := s[repoId].resourceKind;
      SameLinksStayOk(s[newId := rec], CreateDockerImage(s, name, repoId, newId).state);
      ListGains(s, repoId, newId, rec, k.(dockerImageIds := k.dockerImageIds + [newId]));
    }
  }

  // ----- Scan configs -----

  /** The record of a new scan config. */
  function NewConfig(name: string, repoId: Id, parameterIds: seq<Id>, f: Id): Record {
    ResourceRec(name, repoId, [], ScanConfigKind(parameterIds, f, [], []))
  }

  /** The flag, if it is live, lists the new config. */
  function TellFlag(s: State, f: Id, c: Id): State { if f != NO_ID && IsFlag(s, f) then AddRef(s, f, c) else s }

  function ListConfig(s: State, repoId: Id, x: Id): State
    requires IsRepo(s, repoId)
  {
    var k := s[repoId].resourceKind;
    WithRepoKind(s, repoId, k.(scanConfigIds := k.scanConfigIds + [x]))
  }

  lemma ListConfigKeeps(s: State, repoId: Id, x: Id)
    requires ReposOk(s) && Consistent(s) && IsRepo(s, repoId) && IsScanConfig(s, x) && s[x].parentId == repoId
    requires !RepoLists(s, repoId, x)
    ensures var t := ListConfig(s, repoId, x);
      && ReposOk(t) && Consistent(t) && MatrixOf(t) == MatrixOf(s) && SameLinks(s, t) && t.Keys == s.Keys
      && RepoLists(t, repoId, x) && IsScanConfig(t, x) && t[x] == s[x]
  {
    var k := s[repoId].resourceKind;
    AppendNoDup(k.scanConfigIds, x);
    RepoTakes(s, repoId, x, k.(scanConfigIds := k.scanConfigIds + [x]));
  }

  /** The request gets past the name check, so the config is stored. */
  ghost predicate ConfigIsStored(s: State, name: string, repoId: Id) {
    IsRepo(s, repoId) && !Taken(s, s[repoId].resourceKind.scanConfigIds, ScanConfigMember, name)
  }

  /** No flag is given, or the flag is live. */
  predicate FlagLive(s: State, f: Id) { f == NO_ID || IsFlag(s, f) }

  /** The state in which the config is stored and the flag has been told. */
  function ConfigTold(s: State, name: string, repoId: Id, parameterIds: seq<Id>, f: Id, newId: Id): State {
    TellFlag(s[newId := NewConfig(name, repoId, parameterIds, f)], f, newId)
  }

  lemma CreateConfigOkIff(s: State, name: string, repoId: Id, parameterIds: seq<Id>, f: Id, newId: Id)
    requires ReposOk(s) && newId !in s
    ensures var o := CreateScanConfig(s, name, repoId, parameterIds, f, newId);
      var s2 := ConfigTold(s, name, repoId, parameterIds, f, newId);
      && (o.ok <==> ConfigIsStored(s, name, repoId) && FlagLive(s, f))
      && (o.ok ==> IsRepo(s2, repoId) && s2[repoId] == s[repoId] && o.state == ListConfig(s2, repoId, newId))
      && (!o.ok ==> o.state == if ConfigIsStored(s, name, repoId) then s2 else s)
  {
    if IsRepo(s, repoId) {
      ListedLive(s, repoId);
      FindByNameMeans(s, s[repoId].resourceKind.scanConfigIds, name, ScanConfigMember);
    }
  }

  /** A new config compared with one that has no flag and no parameter values. */
  lemma NewConfigSame(u: State, newId: Id, rec: Record)
    requires IsScanConfig(u, newId) && rec.ResourceRec? && rec.resourceKind.ScanConfigKind?
    requires u[newId] == rec.(resourceKind := rec.resourceKind.(parameterValueIds := [], flagId := NO_ID))
    ensures var t := u[newId := rec]; SameImages(u, t) && SameEvents(u, t) && Mild(u, t)
  {
  }

  /** A stored config, before any flag is told, compared with the store before. */
  lemma StoredConfigRest(s: State, name: string, repoId: Id, parameterIds: seq<Id>, f: Id, newId: Id)
    requires newId !in s
    ensures var t := s[newId := NewConfig(name, repoId, parameterIds, f)];
      && (ReposOk(s) && Consistent(s) ==> ReposOk(t) && Consistent(t) && MatrixOf(t) == MatrixOf(s))
      && (ImagesOk(s) && EventsOk(s) ==> ImagesOk(t) && EventsOk(t))
  {
    var bare := NewConfig(name, repoId, [], NO_ID);
    var u := s[newId := bare];
    var t := s[newId := NewConfig(name, repoId, parameterIds, f)];
    assert u[newId := NewConfig(name, repoId, parameterIds, f)] == t;
    NewConfigSame(u, newId, t[newId]);
    if ReposOk(s) && Consistent(s) { StoreBareSafe(s, newId, bare); MildOk(u, t); }
    if ImagesOk(s) && EventsOk(s) {
      StoreBareImages(s, newId, bare);
      StoreBareEvents(s, newId, bare);
      ImagesStayOk(u, t);
      EventsStayOk(u, t);
    }
  }

  lemma TellFlagOnlyFlags(s: State, f: Id, c: Id)
    ensures OnlyFlagsDiffer(s, TellFlag(s, f, c))
  {
    NothingDiffers(s);
    if f != NO_ID && IsFlag(s, f) { WithUsedByOnlyFlags(s, f, AddUniquely(c, s[f].resourceKind.usedByScanConfigIds)); }
  }

  lemma ConfigToldSafe(s: State, name: string, repoId: Id, parameterIds: seq<Id>, f: Id, newId: Id)
    requires ReposOk(s) && Consistent(s) && newId !in s
    ensures var t := ConfigTold(s, name, repoId, parameterIds, f, newId);
      ReposOk(t) && Consistent(t) && MatrixOf(t) == MatrixOf(s)
  {
    var s1 := s[newId := NewConfig(name, repoId, parameterIds, f)];
    StoredConfigRest(s, name, repoId, parameterIds, f, newId);
    TellFlagOnlyFlags(s1, f, newId);
    MildOk(s1, TellFlag(s1, f, newId));
  }

  lemma ConfigToldSeen(s: State, name: string, repoId: Id, parameterIds: seq<Id>, f: Id, newId: Id)
    requires newId !in s
    ensures var t := ConfigTold(s, name, repoId, parameterIds, f, newId);
      t.Keys == s.Keys + {newId} && IsScanConfig(t, newId) && t[newId] == NewConfig(name, repoId, parameterIds, f)
  {
  }

  /** Whatever the other links are like, dbCreateScanConfig keeps repos and access lists in step, even when it fails. */
  lemma CreateConfigSafe(s: State, name: string, repoId: Id, parameterIds: seq<Id>, f: Id, newId: Id)
    requires ReposOk(s) && Consistent(s) && newId !in s
    ensures var o := CreateScanConfig(s, name, repoId, parameterIds, f, newId);
      && ReposOk(o.state) && Consistent(o.state) && MatrixOf(o.state) == MatrixOf(s)
      && (o.ok ==> && RepoLists(o.state, repoId, newId) && IsScanConfig(o.state, newId)
                   && o.state[newId] == NewConfig(name, repoId, parameterIds, f))
      && (ConfigIsStored(s, name, repoId) ==>
            SameLinks(ConfigTold(s, name, repoId, parameterIds, f, newId), o.state) && o.state.Keys == s.Keys + {newId})
  {
    var s2 := ConfigTold(s, name, repoId, parameterIds, f, newId);
    CreateConfigOkIff(s, name, repoId, parameterIds, f, newId);
    ConfigToldSafe(s, name, repoId, parameterIds, f, newId);
    ConfigToldSeen(s, name, repoId, parameterIds, f, newId);
    NothingDiffers(s2);
    if CreateScanConfig(s, name, repoId, parameterIds, f, newId).ok {
      NewIdUnlisted(s, repoId, newId);
      ListConfigKeeps(s2, repoId, newId);
    }
  }

  lemma NewConfigPairs(s: State, newId: Id, rec: Record)
    requires FlagsListOnce(s) && newId !in s && rec.ResourceRec? && rec.resourceKind.ScanConfigKind?
    ensures var t := s[newId := rec]; var f := rec.resourceKind.flagId;
      && FlagsListOnce(t)
      && (forall c, g {:trigger UsesFlag(t, c, g)} :: UsesFlag(t, c, g) <==> UsesFlag(s, c, g) || (c == newId && g == f != NO_ID))
      && (forall c, g {:trigger FlagLists(t, g, c)} :: FlagLists(t, g, c) <==> FlagLists(s, g, c))
  {
    var t := s[newId := rec];
    forall g | IsFlag(t, g) ensures NoDup(t[g].resourceKind.usedByScanConfigIds) { assert IsFlag(s, g); }
  }

  /** The flags are in step with the new config exactly when its flag is live. */
  lemma ConfigToldFlagsIff(s: State, name: string, repoId: Id, parameterIds: seq<Id>, f: Id, newId: Id)
    requires FlagsOk(s) && newId !in s
    ensures FlagsOk(ConfigTold(s, name, repoId, parameterIds, f, newId)) <==> FlagLive(s, f)
  {
    var s1 := s[newId := NewConfig(name, repoId, parameterIds, f)];
    NewConfigPairs(s, newId, s1[newId]);
    if f == NO_ID {
      FlagsFromPairs(s, s1, newId, f);
    } else if IsFlag(s, f) {
      AddRefLists(s1, f, newId);
      FlagsFromPairs(s, AddRef(s1, f, newId), newId, f);
    } else {
      assert UsesFlag(s1, newId, f) && !FlagLists(s1, f, newId);
    }
  }

  /** Only the pair of `x` and `f`, if `f` is an id, is new on both sides. */
  lemma FlagsFromPairs(s: State, t: State, x: Id, f: Id)
    requires FlagsOk(s) && FlagsListOnce(t)
    requires forall c, g {:trigger UsesFlag(t, c, g)} :: UsesFlag(t, c, g) <==> UsesFlag(s, c, g) || (c == x && g == f != NO_ID)
    requires forall c, g {:trigger FlagLists(t, g, c)} :: FlagLists(t, g, c) <==> FlagLists(s, g, c) || (c == x && g == f != NO_ID)
    ensures FlagsOk(t)
  {
    forall c, g | UsesFlag(t, c, g) ensures FlagLists(t, g, c) { assert (c == x && g == f) || UsesFlag(s, c, g); }
    forall c, g | FlagLists(t, g, c) ensures UsesFlag(t, c, g) { assert (c == x && g == f) || FlagLists(s, g, c); }
  }

  /** Images and events are in step whatever the flag is. */
  lemma ConfigToldImagesEvents(s: State, name: string, repoId: Id, parameterIds: seq<Id>, f: Id, newId: Id)
    requires ImagesOk(s) && EventsOk(s) && newId !in s
    ensures var t := ConfigTold(s, name, repoId, parameterIds, f, newId); ImagesOk(t) && EventsOk(t)
  {
    var s1 := s[newId := NewConfig(name, repoId, parameterIds, f)];
    StoredConfigRest(s, name, repoId, parameterIds, f, newId);
    TellFlagOnlyFlags(s1, f, newId);
    ImagesStayOk(s1, TellFlag(s1, f, newId));
    EventsStayOk(s1, TellFlag(s1, f, newId));
  }

  /** The new config holds the parameter values given for it, and nothing else about values changes. */
  lemma NewConfigHolds(s: State, name: string, repoId: Id, parameterIds: seq<Id>, f: Id, newId: Id)
    requires newId !in s && CreateScanConfig(s, name, repoId, parameterIds, f, newId).ok
    ensures NewHolder(s, CreateScanConfig(s, name, repoId, parameterIds, f, newId).state, newId, parameterIds)
  {
  }

  ghost predicate NewHolder(s: State, t: State, x: Id, ids: seq<Id>) {
    && HeldBy(s, x) == []
    && (forall y {:trigger HeldBy(t, y)} :: HeldBy(t, y) == if y == x then ids else HeldBy(s, y))
    && (forall v {:trigger IsParameter(t, v)} {:trigger IsParameter(s, v)} :: IsParameter(t, v) <==> IsParameter(s, v))
  }

  /** A new holder of parameter values keeps them in step exactly when they were free. */
  lemma NewHolderIff(s: State, t: State, x: Id, ids: seq<Id>)
    requires ValuesOk(s) && NewHolder(s, t, x, ids)
    ensures ValuesOk(t) <==> FreeParameters(s, ids)
  {
    forall y, v ensures Holds(t, y, v) <==> if y == x then v in ids else Holds(s, y, v) { var held := HeldBy(t, y); }
    if FreeParameters(s, ids) {
      forall y, v | Holds(t, y, v) ensures IsParameter(t, v) { assert y != x ==> Holds(s, y, v); }
      forall y ensures NoDup(HeldBy(t, y)) { var held := HeldBy(s, y); }
      forall y, z, v | Holds(t, y, v) && Holds(t, z, v) ensures y == z {
        if y != x && z != x { assert Holds(s, y, v) && Holds(s, z, v); }
      }
    }
    if ValuesOk(t) {
      assert NoDup(HeldBy(t, x));
      forall v | v in ids ensures IsParameter(s, v) && forall y :: !Holds(s, y, v) {
        assert Holds(t, x, v);
        forall y ensures !Holds(s, y, v) { var held, held' := Holds(s, y, v), Holds(t, y, v); }
      }
    }
  }

  /**
  dbCreateScanConfig succeeds exactly when the repo is live, the name is free and the flag, if given, is live. The links
  stay in step unless the name check passes and the flag is dead, or a parameter value that is given is dead or has a
  holder: then a config is stored that names a dead flag, or shares a value. When it succeeds, the repo and the flag list
  the new config, which has that name, parent, flag and those values, and nothing else has changed.
  */
  lemma CreateScanConfigMeans(s: State, name: string, repoId: Id, parameterIds: seq<Id>, f: Id, newId: Id)
    requires LinksOk(s) && Consistent(s) && newId !in s && newId != NO_ID
    ensures var o := CreateScanConfig(s, name, repoId, parameterIds, f, newId);
      && Consistent(o.state) && MatrixOf(o.state) == MatrixOf(s)
      && (o.ok <==> ConfigIsStored(s, name, repoId) && FlagLive(s, f))
      && (LinksOk(o.state) <==> (ConfigIsStored(s, name, repoId) ==> FlagLive(s, f) && FreeParameters(s, parameterIds)))
      && (o.ok ==> RepoGains(s, o.state, repoId, f, newId, ResourceRec(name, repoId, [], ScanConfigKind(parameterIds, f, [], []))))
      && (!o.ok ==> o.state == if ConfigIsStored(s, name, repoId)
                                 then s[newId := ResourceRec(name, repoId, [], ScanConfigKind(parameterIds, f, [], []))] else s)
  {
    CreateConfigOkIff(s, name, repoId, parameterIds, f, newId);
    CreateConfigSafe(s, name, repoId, parameterIds, f, newId);
    CreateConfigLinksIff(s, name, repoId, parameterIds, f, newId);
    if ConfigIsStored(s, name, repoId) && FlagLive(s, f) { ConfigGains(s, name, repoId, parameterIds, f, newId); }
  }

  /** What a new config adds, for a live flag or none. */
  lemma ConfigGains(s: State, name: string, repoId: Id, parameterIds: seq<Id>, f: Id, newId: Id)
    requires FlagsOk(s) && NO_ID !in s && newId !in s && newId != NO_ID && IsRepo(s, repoId) && FlagLive(s, f)
    ensures var s2 := ConfigTold(s, name, repoId, parameterIds, f, newId);
      IsRepo(s2, repoId) && RepoGains(s, ListConfig(s2, repoId, newId), repoId, f, newId, NewConfig(name, repoId, parameterIds, f))
  {
    var s1 := s[newId := NewConfig(name, repoId, parameterIds, f)];
    var s2 := ConfigTold(s, name, repoId, parameterIds, f, newId);
    var t := ListConfig(s2, repoId, newId);
    NewConfigPairs(s, newId, s1[newId]);
    if f != NO_ID { AddRefLists(s1, f, newId); }
    assert forall c, g {:trigger FlagLists(t, g, c)} :: FlagLists(t, g, c) <==> FlagLists(s2, g, c);
    assert forall p, y {:trigger RepoLists(t, p, y)} :: RepoLists(t, p, y) <==> RepoLists(s, p, y) || (p == repoId && y == newId);
  }

  lemma CreateConfigLinksIff(s: State, name: string, repoId: Id, parameterIds: seq<Id>, f: Id, newId: Id)
    requires LinksOk(s) && Consistent(s) && newId !in s && newId != NO_ID
    ensures LinksOk(CreateScanConfig(s, name, repoId, parameterIds, f, newId).state)
       <==> (ConfigIsStored(s, name, repoId) ==> FlagLive(s, f) && FreeParameters(s, parameterIds))
  {
    CreateConfigOkIff(s, name, repoId, parameterIds, f, newId);
    if ConfigIsStored(s, name, repoId) {
      if FlagLive(s, f) {
        ListedConfigLinksIff(s, name, repoId, parameterIds, f, newId);
      } else {
        ConfigToldFlagsIff(s, name, repoId, parameterIds, f, newId);
      }
    }
  }

  lemma ListedConfigLinksIff(s: State, name: string, repoId: Id, parameterIds: seq<Id>, f: Id, newId: Id)
    requires LinksOk(s) && Consistent(s) && newId !in s && newId != NO_ID && ConfigIsStored(s, name, repoId) && FlagLive(s, f)
    ensures LinksOk(CreateScanConfig(s, name, repoId, parameterIds, f, newId).state) <==> FreeParameters(s, parameterIds)
  {
    var t := CreateScanConfig(s, name, repoId, parameterIds, f, newId).state;
    CreateConfigOkIff(s, name, repoId, parameterIds, f, newId);
    CreateConfigSafe(s, name, repoId, parameterIds, f, newId);
    ConfigToldFlagsIff(s, name, repoId, parameterIds, f, newId);
    ConfigToldImagesEvents(s, name, repoId, parameterIds, f, newId);
    NewConfigHolds(s, name, repoId, parameterIds, f, newId);
    ValuesDecide(s, ConfigTold(s, name, repoId, parameterIds, f, newId), t, newId, parameterIds);
  }

  /** When the flags are in step, the values that the new config is given decide. */
  lemma ValuesDecide(s: State, s2: State, t: State, newId: Id, parameterIds: seq<Id>)
    requires ValuesOk(s) && FlagsOk(s2) && ImagesOk(s2) && EventsOk(s2) && SameLinks(s2, t) && NewHolder(s, t, newId, parameterIds)
    ensures FlagsOk(t) && ImagesOk(t) && EventsOk(t) && (ValuesOk(t) <==> FreeParameters(s, parameterIds))
  {
    FlagsStayOk(s2, t);
    ImagesStayOk(s2, t);
    EventsStayOk(s2, t);
    NewHolderIff(s, t, newId, parameterIds);
  }

  // ----- Events and parameter values -----

  lemma WithValuesSame(s: State, ids: seq<Id>, newId: Id)
    requires FreshValues(s, ids, newId)
    ensures var t := WithValues(s, ids); SameLinks(s, t) && Mild(s, t)
  {
    WithValuesMild(s, ids, newId);
    WithValuesFlags(s, ids, newId);
    WithValuesEvents(s, ids, newId);
  }

  lemma WithValuesMild(s: State, ids: seq<Id>, newId: Id)
    requires FreshValues(s, ids, newId)
    ensures Mild(s, WithValues(s, ids))
  {
    OtherRecordsStay(s, ids, newId);
  }

  lemma WithValuesFlags(s: State, ids: seq<Id>, newId: Id)
    requires FreshValues(s, ids, newId)
    ensures SameFlags(s, WithValues(s, ids)) && SameImages(s, WithValues(s, ids))
  {
    OtherRecordsStay(s, ids, newId);
  }

  lemma WithValuesEvents(s: State, ids: seq<Id>, newId: Id)
    requires FreshValues(s, ids, newId)
    ensures SameEvents(s, WithValues(s, ids)) && SameValues(s, WithValues(s, ids))
  {
    OtherRecordsStay(s, ids, newId);
  }

  lemma OtherRecordsStay(s: State, ids: seq<Id>, newId: Id)
    requires FreshValues(s, ids, newId)
    ensures var t := WithValues(s, ids);
      && (forall x :: x in t <==> x in s || x in ids) && (forall x :: x in s ==> t[x] == s[x])
      && (forall x :: x in ids ==> t[x] == ParameterRec)
  {
  }

  /** New parameter values are free. */
  lemma WithValuesFree(s: State, ids: seq<Id>, newId: Id)
    requires ValuesOk(s) && FreshValues(s, ids, newId)
    ensures FreeParameters(WithValues(s, ids), ids)
  {
    var t := WithValues(s, ids);
    WithValuesSame(s, ids, newId);
    forall v | v in ids ensures IsParameter(t, v) && forall x :: !Holds(t, x, v) {
      forall x ensures !Holds(t, x, v) {
        var held, live := Holds(s, x, v), IsParameter(s, v);
        assert HeldBy(t, x) == HeldBy(s, x);
      }
    }
  }

  lemma WithValuesSeen(s: State, ids: seq<Id>, newId: Id)
    requires FreshValues(s, ids, newId)
    ensures var t := WithValues(s, ids);
      && t.Keys == s.Keys + set v | v in ids
      && (forall x {:trigger IsScanConfig(t, x)} :: IsScanConfig(t, x) <==> IsScanConfig(s, x))
      && (forall x {:trigger IsUser(t, x)} :: IsUser(t, x) <==> IsUser(s, x))
  {
  }

  /** The store with the new event on both sides, given that its values are stored. */
  function LinkedEvent(s: State, c: Id, values: seq<Id>, newId: Id): State
    requires IsScanConfig(s, c) && newId !in s
  {
    WithEvents(s[newId := ScanEventRec(c, values)], c, s[c].resourceKind.scanEventIds + [newId])
  }

  /** A stored event, whatever it names, leaves repos and access lists alone. */
  lemma StoreEventMild(s: State, rec: Record, newId: Id)
    requires newId !in s && rec.ScanEventRec?
    ensures Mild(s, s[newId := rec])
  {
  }

  lemma StoreEventSame(s: State, rec: Record, newId: Id)
    requires newId !in s && rec.ScanEventRec?
    ensures SameFlags(s, s[newId := rec]) && SameImages(s, s[newId := rec])
  {
  }

  /** Whatever the other links are like, dbCreateScanEvent keeps repos and access lists in step, even when it fails. */
  lemma CreateEventSafe(s: State, c: Id, u: Id, versionLive: bool, values: seq<Id>, newId: Id)
    requires newId !in s && FreshValues(s, values, newId)
    ensures var t := CreateScanEvent(s, c, u, versionLive, values, newId).state; SameFlags(s, t) && SameImages(s, t) && Mild(s, t)
  {
    var s1 := WithValues(s, values);
    var t := CreateScanEvent(s, c, u, versionLive, values, newId).state;
    WithValuesSame(s, values, newId);
    if IsScanConfig(s1, c) {
      var s2 := s1[newId := ScanEventRec(c, values)];
      StoreEventMild(s1, s2[newId], newId);
      StoreEventSame(s1, s2[newId], newId);
      OnlyEventsTwice(s, s1, s2);
      if IsUser(s2, u) {
        WithEventsSame(s2, c, s2[c].resourceKind.scanEventIds + [newId]);
        WithEventsMild(s2, c, s2[c].resourceKind.scanEventIds + [newId]);
        OnlyEventsTwice(s, s2, t);
      }
    }
  }

  /** An event that is stored and not linked names a config that does not list it. */
  lemma UnlinkedEvent(s: State, c: Id, values: seq<Id>, newId: Id)
    requires IsScanConfig(s, c) && newId !in s && NO_ID !in s && EventsOk(s)
    ensures !EventsOk(s[newId := ScanEventRec(c, values)])
  {
    var t := s[newId := ScanEventRec(c, values)];
    assert EventNames(t, newId, c);
    var listed, named := ConfigListsEvent(s, c, newId), EventNames(s, newId, c);
    assert !ConfigListsEvent(t, c, newId);
  }

  lemma LinkedEventEvents(s: State, c: Id, values: seq<Id>, newId: Id)
    requires EventsOk(s) && IsScanConfig(s, c) && newId !in s && NO_ID !in s
    ensures var t := LinkedEvent(s, c, values, newId);
      EventsOk(t) && EventNames(t, newId, c) && ConfigListsEvent(t, c, newId)
  {
    var t := LinkedEvent(s, c, values, newId);
    var listed, named := ConfigListsEvent(s, c, newId), EventNames(s, newId, c);
    AppendNoDup(s[c].resourceKind.scanEventIds, newId);
    assert forall x, y {:trigger EventNames(t, y, x)} :: EventNames(t, y, x) <==> EventNames(s, y, x) || (x == c && y == newId);
    assert forall x, y {:trigger ConfigListsEvent(t, x, y)} ::
      ConfigListsEvent(t, x, y) <==> ConfigListsEvent(s, x, y) || (x == c && y == newId);
    forall x | IsScanConfig(t, x) ensures NoDup(t[x].resourceKind.scanEventIds) { assert IsScanConfig(s, x); }
  }

  lemma LinkedEventHolds(s: State, c: Id, values: seq<Id>, newId: Id)
    requires IsScanConfig(s, c) && newId !in s
    ensures NewHolder(s, LinkedEvent(s, c, values, newId), newId, values)
  {
  }

  /** The event is linked: everything about it is in step. */
  lemma LinkedEventOk(s: State, c: Id, values: seq<Id>, newId: Id)
    requires LinksOk(s) && IsScanConfig(s, c) && newId !in s && newId != NO_ID && FreshValues(s, values, newId)
    ensures var s1 := WithValues(s, values);
      && IsScanConfig(s1, c) && newId !in s1
      && var t := LinkedEvent(s1, c, values, newId);
        EventsOk(t) && ValuesOk(t) && EventNames(t, newId, c) && ConfigListsEvent(t, c, newId) && HeldBy(t, newId) == values
  {
    var s1 := WithValues(s, values);
    WithValuesSame(s, values, newId);
    WithValuesSeen(s, values, newId);
    WithValuesFree(s, values, newId);
    EventsStayOk(s, s1);
    ValuesStayOk(s, s1);
    LinkedEventEvents(s1, c, values, newId);
    LinkedEventHolds(s1, c, values, newId);
    NewHolderIff(s1, LinkedEvent(s1, c, values, newId), newId, values);
  }

  /** What dbCreateScanEvent does when the config is dead: only the values are stored. */
  lemma NoEvent(s: State, values: seq<Id>, newId: Id)
    requires LinksOk(s) && FreshValues(s, values, newId)
    ensures EventsOk(WithValues(s, values)) && ValuesOk(WithValues(s, values)) && NO_ID !in WithValues(s, values)
  {
    WithValuesSame(s, values, newId);
    WithValuesSeen(s, values, newId);
    EventsStayOk(s, WithValues(s, values));
    ValuesStayOk(s, WithValues(s, values));
  }

  /** Events and values stay in step unless the config is live and the user is not. */
  lemma CreateEventEventsIff(s: State, c: Id, u: Id, versionLive: bool, values: seq<Id>, newId: Id)
    requires LinksOk(s) && newId !in s && newId != NO_ID && FreshValues(s, values, newId)
    ensures var t := CreateScanEvent(s, c, u, versionLive, values, newId).state;
      && ((EventsOk(t) && ValuesOk(t) && NO_ID !in t) <==> (IsScanConfig(s, c) ==> IsUser(s, u)))
      && (IsScanConfig(s, c) && IsUser(s, u) ==>
            EventNames(t, newId, c) && ConfigListsEvent(t, c, newId) && HeldBy(t, newId) == values)
  {
    var s1 := WithValues(s, values);
    NoEvent(s, values, newId);
    WithValuesSeen(s, values, newId);
    if IsScanConfig(s, c) {
      assert IsUser(s1[newId := ScanEventRec(c, values)], u) <==> IsUser(s1, u);
      if IsUser(s, u) { LinkedEventOk(s, c, values, newId); } else { UnlinkedEvent(s1, c, values, newId); }
    }
  }

  /** `t` has the event `e` and its new values besides what `s` has, and config `c` lists it; nothing else has changed. */
  ghost predicate EventGains(s: State, t: State, c: Id, values: seq<Id>, e: Id) {
    && t.Keys == s.Keys + (set v | v in values) + {e}
    && t[e] == ScanEventRec(c, values) && (forall v :: v in values ==> t[v] == ParameterRec)
    && (forall y {:trigger t[y]} :: y in s && y != c ==> t[y] == s[y])
    && IsScanConfig(s, c) && IsScanConfig(t, c) && SameButKind(s[c], t[c])
    && t[c].resourceKind.(scanEventIds := s[c].resourceKind.scanEventIds) == s[c].resourceKind
    && (forall x, y {:trigger ConfigListsEvent(t, x, y)} ::
          ConfigListsEvent(t, x, y) <==> ConfigListsEvent(s, x, y) || (x == c && y == e))
  }

  lemma LinkedEventGains(s: State, c: Id, values: seq<Id>, newId: Id)
    requires IsScanConfig(s, c) && newId !in s && FreshValues(s, values, newId)
    ensures var s1 := WithValues(s, values);
      IsScanConfig(s1, c) && newId !in s1 && EventGains(s, LinkedEvent(s1, c, values, newId), c, values, newId)
  {
    var s1 := WithValues(s, values);
    OtherRecordsStay(s, values, newId);
    var t := LinkedEvent(s1, c, values, newId);
    forall x, y ensures ConfigListsEvent(t, x, y) <==> ConfigListsEvent(s, x, y) || (x == c && y == newId) {
      assert IsScanConfig(t, x) <==> IsScanConfig(s, x);
    }
  }

  /**
  dbCreateScanEvent succeeds exactly when config, user and image version are live. The links stay in step unless the
  config is live and the user is not: then an event is stored that names a config that does not list it. With a live
  config and user the event is there, listed by the config and holding its values, and nothing else has changed.
  */
  lemma CreateScanEventMeans(s: State, c: Id, u: Id, versionLive: bool, values: seq<Id>, newId: Id)
    requires LinksOk(s) && Consistent(s) && newId !in s && newId != NO_ID && FreshValues(s, values, newId)
    ensures var o := CreateScanEvent(s, c, u, versionLive, values, newId);
      && Consistent(o.state) && MatrixOf(o.state) == MatrixOf(s)
      && (o.ok <==> IsScanConfig(s, c) && IsUser(s, u) && versionLive)
      && (LinksOk(o.state) <==> (IsScanConfig(s, c) ==> IsUser(s, u)))
      && (IsScanConfig(s, c) && IsUser(s, u) ==> EventGains(s, o.state, c, values, newId))
      && (IsScanConfig(s, c) && !IsUser(s, u) ==> o.state == WithValues(s, values)[newId := ScanEventRec(c, values)])
      && (!IsScanConfig(s, c) ==> o.state == WithValues(s, values))
  {
    CreateEventStates(s, c, u, versionLive, values, newId);
    CreateEventOkIff(s, c, u, versionLive, values, newId);
    CreateEventEventsIff(s, c, u, versionLive, values, newId);
    CreateEventSafe(s, c, u, versionLive, values, newId);
    EventsDecide(s, CreateScanEvent(s, c, u, versionLive, values, newId).state, IsScanConfig(s, c) ==> IsUser(s, u));
  }

  lemma CreateEventStates(s: State, c: Id, u: Id, versionLive: bool, values: seq<Id>, newId: Id)
    requires newId !in s && FreshValues(s, values, newId)
    ensures var t := CreateScanEvent(s, c, u, versionLive, values, newId).state;
      && (IsScanConfig(s, c) && IsUser(s, u) ==> EventGains(s, t, c, values, newId))
      && (IsScanConfig(s, c) && !IsUser(s, u) ==> t == WithValues(s, values)[newId := ScanEventRec(c, values)])
      && (!IsScanConfig(s, c) ==> t == WithValues(s, values))
  {
    WithValuesSeen(s, values, newId);
    var s1 := WithValues(s, values);
    assert IsUser(s1[newId := ScanEventRec(c, values)], u) <==> IsUser(s1, u);
    if IsScanConfig(s, c) { LinkedEventGains(s, c, values, newId); }
  }

  lemma CreateEventOkIff(s: State, c: Id, u: Id, versionLive: bool, values: seq<Id>, newId: Id)
    requires newId !in s && FreshValues(s, values, newId)
    ensures CreateScanEvent(s, c, u, versionLive, values, newId).ok <==> IsScanConfig(s, c) && IsUser(s, u) && versionLive
  {
    WithValuesSeen(s, values, newId);
  }

  /** When flags, images, repos and access lists are as they were, the events and values decide. */
  lemma EventsDecide(s: State, t: State, stay: bool)
    requires LinksOk(s) && Consistent(s) && OnlyEventsDiffer(s, t)
    requires (EventsOk(t) && ValuesOk(t) && NO_ID !in t) <==> stay
    ensures Consistent(t) && MatrixOf(t) == MatrixOf(s) && (LinksOk(t) <==> stay)
  {
    MildOk(s, t);
    FlagsStayOk(s, t);
    ImagesStayOk(s, t);
  }

  lemma CreateParameterSame(s: State, c: Id, newId: Id)
    requires newId !in s
    ensures var t := CreateParameter(s, c, newId).state; SameFlags(s, t) && SameImages(s, t) && SameEvents(s, t) && Mild(s, t)
  {
    NothingDiffers(s);
    if IsScanConfig(s, c) {
      var s1 := s[newId := ParameterRec];
      var t := CreateParameter(s, c, newId).state;
      StoreParameterSame(s, newId);
      WithParametersSame(s1, c, s[c].resourceKind.parameterValueIds + [newId]);
      OnlyEventsTwice(s, s1, t);
      SameEventsTwice(s, s1, t);
    }
  }

  lemma StoreParameterSame(s: State, newId: Id)
    requires newId !in s
    ensures var t := s[newId := ParameterRec]; SameFlags(s, t) && SameImages(s, t) && SameEvents(s, t) && Mild(s, t)
  {
  }

  /** dbCreateScanParameterValue gives a live config one more value, which is new; nothing else changes. */
  lemma CreateParameterMeans(s: State, c: Id, newId: Id)
    requires LinksOk(s) && Consistent(s) && newId !in s && newId != NO_ID
    ensures var o := CreateParameter(s, c, newId);
      && LinksOk(o.state) && Consistent(o.state) && MatrixOf(o.state) == MatrixOf(s)
      && (o.ok <==> IsScanConfig(s, c)) && (!o.ok ==> o.state == s)
      && (o.ok ==> && GainsValue(s, o.state, c, newId) && SameFlags(s, o.state) && SameImages(s, o.state) && SameEvents(s, o.state)
                   && o.state.Keys == s.Keys + {newId} && SameButKind(s[c], o.state[c])
                   && forall y {:trigger o.state[y]} :: y in s && y != c ==> o.state[y] == s[y])
  {
    if IsScanConfig(s, c) {
      var t := CreateParameter(s, c, newId).state;
      CreateParameterSame(s, c, newId);
      FlagsStayOk(s, t);
      ImagesStayOk(s, t);
      EventsStayOk(s, t);
      MildOk(s, t);
      CreateParameterHolds(s, c, newId);
      OneMoreValue(s, t, c, newId);
    }
  }

  lemma CreateParameterHolds(s: State, c: Id, newId: Id)
    requires IsScanConfig(s, c) && newId !in s
    ensures GainsValue(s, CreateParameter(s, c, newId).state, c, newId)
  {
  }

  /** A new value `v` exists, and `c` holds it. */
  ghost predicate GainsValue(s: State, t: State, c: Id, v: Id) {
    && (forall y {:trigger HeldBy(t, y)} :: HeldBy(t, y) == if y == c then HeldBy(s, c) + [v] else HeldBy(s, y))
    && (forall w {:trigger IsParameter(t, w)} :: IsParameter(t, w) <==> IsParameter(s, w) || w == v)
  }

  lemma GainsPairs(s: State, t: State, c: Id, v: Id)
    requires ValuesOk(s) && v !in s && GainsValue(s, t, c, v)
    ensures forall y :: !Holds(s, y, v)
    ensures forall y, w {:trigger Holds(t, y, w)} :: Holds(t, y, w) <==> Holds(s, y, w) || (y == c && w == v)
  {
    forall y ensures !Holds(s, y, v) { var live := IsParameter(s, v); }
    forall y, w ensures Holds(t, y, w) <==> Holds(s, y, w) || (y == c && w == v) { var held := HeldBy(t, y); }
  }

  lemma OneMoreValue(s: State, t: State, c: Id, v: Id)
    requires ValuesOk(s) && v !in s && GainsValue(s, t, c, v)
    ensures ValuesOk(t)
  {
    GainsPairs(s, t, c, v);
    forall y, w | Holds(t, y, w) ensures IsParameter(t, w) { assert w != v ==> Holds(s, y, w) && IsParameter(s, w); }
    forall y ensures NoDup(HeldBy(t, y)) {
      assert NoDup(HeldBy(s, y)) && !Holds(s, y, v);
      AppendNoDup(HeldBy(s, y), v);
    }
  }
}
