/**
The link operations as the client runs them, on the objects of the store. Each method is proved to do to the records
what the function of the same name in `Names` or `ScanLinks` says.
*/
module ScanLinkMethods {
  import opened Basics
  import opened ObjectStore
  import opened Access
  import opened Names
  import AccessMethods
  import ScanLinks

  /** The resources are where they were. */
  ghost predicate KeepsResourceObjects(before: map<Id, Object>, after: map<Id, Object>) {
    forall x {:trigger before[x]} :: x in before && before[x].ResourceObj? ==> x in after && after[x] == before[x]
  }

  // ----- Getters -----

  method GetMember(db: InMemClient, id: Id, kind: MemberKind) returns (r: Result<string>)
    requires db.Valid()
    ensures r.Ok? <==> IsMember(db.state, id, kind)
    ensures r.Ok? ==> r.value == db.state[id].name
  {
    if kind == UserMember || kind == GroupMember {
      var p := db.GetParty(id);
      if p.Err? || p.value.kind.UserKind? != (kind == UserMember) { return Err; }
      return Ok(p.value.name);
    }
    var o := db.GetResource(id);
    if o.Err? { return Err; }
    var ofKind := match kind
      case RepoMember => o.value.kind.RepoKind?
      case DockerfileMember => o.value.kind.DockerfileKind?
      case ImageMember => o.value.kind.DockerImageKind?
      case ScanConfigMember => o.value.kind.ScanConfigKind?
      case FlagMember => o.value.kind.FlagKind?
      case _ => false;
    r := if ofKind then Ok(o.value.name) else Err;
  }

  /** The search loop of getRepoByName, getDockerImageByName, getScanConfigByName and getFlagByName. */
  method GetByName(db: InMemClient, ids: seq<Id>, name: string, kind: MemberKind) returns (r: ByName)
    requires db.Valid()
    ensures r == FindByName(db.state, ids, name, kind)
  {
    var i := 0;
    while i < |ids|
      invariant 0 <= i <= |ids|
      invariant FindByName(db.state, ids, name, kind) == FindByName(db.state, ids[i..], name, kind)
    {
      var member := GetMember(db, ids[i], kind);
      if member.Err? { return Broken; }
      if member.value == name { return Named(ids[i]); }
      i := i + 1;
    }
    r := NotNamed;
  }

  /** createUniqueRepoName and createUniqueDockerImageName */
  method CreateUniqueName(db: InMemClient, ids: seq<Id>, kind: MemberKind, prefix: string, conforms: bool)
    returns (r: Result<string>)
    requires db.Valid()
    ensures r == Names.CreateUniqueName(db.state, ids, kind, prefix, conforms)
    ensures r.Ok? && MembersLive(db.state, ids, kind) ==> LeastFree(db.state, ids, kind, prefix, r.value)
  {
    if !conforms { return Err; }
    var i: nat := 1;
    while true
      invariant 1 <= i <= MAX_ATTEMPTS + 1
      invariant UniqueNameFrom(db.state, ids, kind, prefix, 1) == UniqueNameFrom(db.state, ids, kind, prefix, i)
      decreases MAX_ATTEMPTS + 1 - i
    {
      if i > MAX_ATTEMPTS { return Err; }
      var name := Candidate(prefix, i);
      var found := GetByName(db, ids, name, kind);
      match found {
        case Broken => return Err;
        case NotNamed =>
          if MembersLive(db.state, ids, kind) { CreateUniqueNameMeans(db.state, ids, kind, prefix, conforms); }
          return Ok(name);
        case Named(_) => i := i + 1;
      }
    }
  }

  method GetScanConfig(db: InMemClient, id: Id) returns (r: Result<Resource>)
    requires db.Valid()
    ensures r.Ok? <==> IsScanConfig(db.state, id)
    ensures r.Ok? ==> db.LiveResource(r.value) && r.value.id == id && db.state[id] == r.value.View()
  {
    r := db.GetResource(id);
    if r.Ok? && !r.value.kind.ScanConfigKind? { r := Err; }
  }

  method GetFlag(db: InMemClient, id: Id) returns (r: Result<Resource>)
    requires db.Valid()
    ensures r.Ok? <==> IsFlag(db.state, id)
    ensures r.Ok? ==> db.LiveResource(r.value) && r.value.id == id && db.state[id] == r.value.View()
  {
    r := db.GetResource(id);
    if r.Ok? && !r.value.kind.FlagKind? { r := Err; }
  }

  method GetDockerImage(db: InMemClient, id: Id) returns (r: Result<Resource>)
    requires db.Valid()
    ensures r.Ok? <==> IsImage(db.state, id)
    ensures r.Ok? ==> db.LiveResource(r.value) && r.value.id == id && db.state[id] == r.value.View()
  {
    r := db.GetResource(id);
    if r.Ok? && !r.value.kind.DockerImageKind? { r := Err; }
  }

  method GetRepo(db: InMemClient, id: Id) returns (r: Result<Resource>)
    requires db.Valid()
    ensures r.Ok? <==> IsRepo(db.state, id)
    ensures r.Ok? ==> db.LiveResource(r.value) && r.value.id == id && db.state[id] == r.value.View()
  {
    r := db.GetResource(id);
    if r.Ok? && !r.value.kind.RepoKind? { r := Err; }
  }

  /** A live resource and its record. */
  lemma LiveRecord(db: InMemClient, r: Resource)
    requires db.Valid() && db.LiveResource(r)
    ensures IsResource(db.state, r.id) && db.state[r.id] == r.View()
  {
    assert db.objects[r.id].resource == r;
  }

  // ----- Flags -----

  method RemoveScanConfigRef(db: InMemClient, flag: Resource, scanConfigId: Id)
    requires db.Valid() && db.LiveResource(flag) && flag.kind.FlagKind?
    modifies flag`kind, db`state
    ensures db.Valid() && IsFlag(old(db.state), flag.id)
    ensures db.state == ScanLinks.RemoveRef(old(db.state), flag.id, scanConfigId)
  {
    LiveRecord(db, flag);
    db.SetResourceKind(flag, FlagKind(RemoveFrom(scanConfigId, flag.kind.usedByScanConfigIds)));
  }

  method AddScanConfigRef(db: InMemClient, flag: Resource, scanConfigId: Id)
    requires db.Valid() && db.LiveResource(flag) && flag.kind.FlagKind?
    modifies flag`kind, db`state
    ensures db.Valid() && IsFlag(old(db.state), flag.id)
    ensures db.state == ScanLinks.AddRef(old(db.state), flag.id, scanConfigId)
  {
    LiveRecord(db, flag);
    db.SetResourceKind(flag, FlagKind(AddUniquely(scanConfigId, flag.kind.usedByScanConfigIds)));
  }

  method SetFlagId(db: InMemClient, config: Resource, newFlagId: Id) returns (ok: bool)
    requires db.Valid() && db.LiveResource(config) && config.kind.ScanConfigKind?
    modifies db`state, db.Repr
    ensures db.Valid() && db.objects == old(db.objects) && db.Repr == old(db.Repr)
    ensures IsScanConfig(old(db.state), config.id)
    ensures Outcome(db.state, ok) == ScanLinks.SetFlagId(old(db.state), config.id, newFlagId)
    ensures ok ==> config.kind.ScanConfigKind? && config.kind.flagId == newFlagId
    ensures ok && old(config.kind.flagId) != newFlagId ==> ScanLinks.FlagLists(db.state, newFlagId, config.id)
  {
    LiveRecord(db, config);
    var oldFlagId := config.kind.flagId;
    if oldFlagId == newFlagId { return true; }
    var newFlag := GetFlag(db, newFlagId);
    if newFlag.Err? { return false; }
    if oldFlagId != NO_ID {
      var oldFlag := GetFlag(db, oldFlagId);
      if oldFlag.Err? { return false; }
      RemoveScanConfigRef(db, oldFlag.value, config.id);
      LiveRecord(db, config);
      LiveRecord(db, newFlag.value);
    }
    GiveFlag(db, config, newFlag.value);
    ok := true;
  }

  /** The end of setFlagId: the config names the flag, and the flag is told. */
  method GiveFlag(db: InMemClient, config: Resource, flag: Resource)
    requires db.Valid() && db.LiveResource(config) && config.kind.ScanConfigKind?
    requires db.LiveResource(flag) && flag.kind.FlagKind?
    modifies db`state, config`kind, flag`kind
    ensures db.Valid() && IsScanConfig(old(db.state), config.id)
    ensures var s := ScanLinks.WithFlag(old(db.state), config.id, flag.id);
      IsFlag(s, flag.id) && db.state == ScanLinks.AddRef(s, flag.id, config.id)
    ensures config.kind.ScanConfigKind? && config.kind.flagId == flag.id
    ensures ScanLinks.FlagLists(db.state, flag.id, config.id)
  {
    LiveRecord(db, config);
    db.SetResourceKind(config, config.kind.(flagId := flag.id));
    LiveRecord(db, flag);
    AddScanConfigRef(db, flag, config.id);
  }

  // ----- Images -----

  method SetImages(db: InMemClient, config: Resource, ids: seq<Id>)
    requires db.Valid() && db.LiveResource(config) && config.kind.ScanConfigKind?
    modifies config`kind, db`state
    ensures db.Valid() && IsScanConfig(old(db.state), config.id) && config.kind.ScanConfigKind?
    ensures db.state == ScanLinks.WithImages(old(db.state), config.id, ids)
  {
    LiveRecord(db, config);
    db.SetResourceKind(config, config.kind.(dockerImageIdsThatUse := ids));
    LiveRecord(db, config);
  }

  method SetConfigs(db: InMemClient, image: Resource, ids: seq<Id>)
    requires db.Valid() && db.LiveResource(image) && image.kind.DockerImageKind?
    modifies image`kind, db`state
    ensures db.Valid() && IsImage(old(db.state), image.id)
    ensures db.state == ScanLinks.WithConfigs(old(db.state), image.id, ids)
  {
    LiveRecord(db, image);
    db.SetResourceKind(image, DockerImageKind(ids));
  }

  method AddDockerImage(db: InMemClient, config: Resource, dockerImageId: Id) returns (ok: bool)
    requires db.Valid() && db.LiveResource(config) && config.kind.ScanConfigKind?
    modifies db`state, db.Repr
    ensures db.Valid() && db.objects == old(db.objects) && db.Repr == old(db.Repr)
    ensures IsScanConfig(old(db.state), config.id)
    ensures Outcome(db.state, ok) == ScanLinks.AddDockerImage(old(db.state), config.id, dockerImageId)
  {
    LiveRecord(db, config);
    SetImages(db, config, AddUniquely(dockerImageId, config.kind.dockerImageIdsThatUse));
    var dockerImage := GetDockerImage(db, dockerImageId);
    if dockerImage.Err? { return false; }
    SetConfigs(db, dockerImage.value, AddUniquely(config.id, dockerImage.value.kind.scanConfigsToUse));
    ok := true;
  }

  method RemDockerImage(db: InMemClient, config: Resource, dockerImageId: Id) returns (ok: bool)
    requires db.Valid() && db.LiveResource(config) && config.kind.ScanConfigKind?
    modifies db`state, db.Repr
    ensures db.Valid() && db.objects == old(db.objects) && db.Repr == old(db.Repr)
    ensures IsScanConfig(old(db.state), config.id)
    ensures Outcome(db.state, ok) == ScanLinks.RemDockerImage(old(db.state), config.id, dockerImageId)
  {
    LiveRecord(db, config);
    SetImages(db, config, RemoveFrom(dockerImageId, config.kind.dockerImageIdsThatUse));
    var dockerImage := GetDockerImage(db, dockerImageId);
    if dockerImage.Err? { return false; }
    SetConfigs(db, dockerImage.value, RemoveFrom(config.id, dockerImage.value.kind.scanConfigsToUse));
    ok := true;
  }

  // ----- Creation -----

  /** The constructors of resources: an object under a new id. */
  method NewResource(db: InMemClient, name: string, parentId: Id, kind: ResourceKind) returns (r: Resource)
    requires db.Valid()
    modifies db
    ensures db.Valid() && db.LiveResource(r) && fresh(r) && db.Repr == old(db.Repr) + {r}
    ensures r.id == old(db.uniqueId) + 1 == db.uniqueId && r.id !in old(db.state)
    ensures db.state == old(db.state)[r.id := ResourceRec(name, parentId, [], kind)]
    ensures db.objects == old(db.objects)[r.id := ResourceObj(r)] && r.id !in old(db.objects)
    ensures db.userIds == old(db.userIds) && db.cells == old(db.cells)
  {
    var id := db.CreateUniqueDbObjectId();
    r := new Resource(id, name, parentId, kind);
    db.StoreResource(r);
  }

  method DbCreateScanConfig(db: InMemClient, name: string, repoId: Id, parameterIds: seq<Id>, flagId: Id) returns (ok: bool)
    requires db.Valid()
    modifies db, db.Repr
    ensures db.Valid() && old(db.uniqueId) + 1 !in old(db.state) && fresh(db.Repr - old(db.Repr))
    ensures Outcome(db.state, ok)
         == ScanLinks.CreateScanConfig(old(db.state), name, repoId, parameterIds, flagId, old(db.uniqueId) + 1)
  {
    FreshId(db);
    var repo := GetRepo(db, repoId);
    if repo.Err? { return false; }
    var found := GetByName(db, repo.value.kind.scanConfigIds, name, ScanConfigMember);
    if found != NotNamed { return false; }
    ok := StoreConfig(db, repo.value, name, parameterIds, flagId);
  }

  /** The part of dbCreateScanConfig behind its checks. */
  method StoreConfig(db: InMemClient, repo: Resource, name: string, parameterIds: seq<Id>, flagId: Id) returns (ok: bool)
    requires db.Valid() && db.LiveResource(repo) && IsRepo(db.state, repo.id)
    modifies db, db.Repr
    ensures db.Valid() && fresh(db.Repr - old(db.Repr))
    ensures var newId := old(db.uniqueId) + 1;
      var s1 := old(db.state)[newId := ResourceRec(name, repo.id, [], ScanConfigKind(parameterIds, flagId, [], []))];
      newId != repo.id && Outcome(db.state, ok) == NewConfigLinked(s1, repo.id, newId, flagId)
  {
    FreshId(db);
    var config := NewResource(db, name, repo.id, ScanConfigKind(parameterIds, flagId, [], []));
    LiveRecord(db, repo);
    ok := LinkNewConfig(db, repo, config.id, flagId);
  }

  /** A config that has been stored is told to its flag, and then put on the repo's list. */
  function NewConfigLinked(s: State, repoId: Id, configId: Id, flagId: Id): Outcome
    requires IsRepo(s, repoId)
  {
    if flagId != NO_ID && !IsFlag(s, flagId) then Outcome(s, false)
    else
      var t := if flagId != NO_ID then ScanLinks.AddRef(s, flagId, configId) else s;
      var k := t[repoId].resourceKind;
      Outcome(ScanLinks.WithRepoKind(t, repoId, k.(scanConfigIds := k.scanConfigIds + [configId])), true)
  }

  /** The part of dbCreateScanConfig behind the creation of the object: the flag, then the repo's list. */
  method LinkNewConfig(db: InMemClient, repo: Resource, configId: Id, flagId: Id) returns (ok: bool)
    requires db.Valid() && db.LiveResource(repo) && IsRepo(db.state, repo.id)
    modifies db`state, db.Repr
    ensures db.Valid() && db.objects == old(db.objects) && db.Repr == old(db.Repr)
    ensures Outcome(db.state, ok) == NewConfigLinked(old(db.state), repo.id, configId, flagId)
  {
    ok := TellFlag(db, flagId, configId);
    if !ok { return; }
    LiveRecord(db, repo);
    ListConfig(db, repo, configId);
  }

  /** The flag of a new config, if it has one, lists the config. */
  method TellFlag(db: InMemClient, flagId: Id, configId: Id) returns (ok: bool)
    requires db.Valid()
    modifies db`state, db.Repr
    ensures db.Valid() && db.objects == old(db.objects) && db.Repr == old(db.Repr)
    ensures Outcome(db.state, ok) ==
      if flagId == NO_ID then Outcome(old(db.state), true)
      else if !IsFlag(old(db.state), flagId) then Outcome(old(db.state), false)
      else Outcome(ScanLinks.AddRef(old(db.state), flagId, configId), true)
  {
    if flagId == NO_ID { return true; }
    var flag := GetFlag(db, flagId);
    if flag.Err? { return false; }
    AddScanConfigRef(db, flag.value, configId);
    ok := true;
  }

  /** The end of addScanConfig: the repo lists the config. */
  method ListConfig(db: InMemClient, repo: Resource, id: Id)
    requires db.Valid() && db.LiveResource(repo) && repo.kind.RepoKind?
    modifies db`state, repo`kind
    ensures db.Valid() && IsRepo(old(db.state), repo.id)
    ensures var k := old(db.state)[repo.id].resourceKind;
      db.state == ScanLinks.WithRepoKind(old(db.state), repo.id, k.(scanConfigIds := k.scanConfigIds + [id]))
  {
    LiveRecord(db, repo);
    var k := repo.kind;
    db.SetResourceKind(repo, k.(scanConfigIds := k.scanConfigIds + [id]));
  }

  lemma FreshId(db: InMemClient)
    requires db.Valid()
    ensures db.uniqueId + 1 !in db.state
  {
    forall id | id in db.objects ensures id <= db.uniqueId { var o := db.objects[id]; }
  }

  method DbCreateFlag(db: InMemClient, name: string, repoId: Id) returns (ok: bool)
    requires db.Valid()
    modifies db, db.Repr
    ensures db.Valid() && old(db.uniqueId) + 1 !in old(db.state) && fresh(db.Repr - old(db.Repr))
    ensures Outcome(db.state, ok) == ScanLinks.CreateFlag(old(db.state), name, repoId, old(db.uniqueId) + 1)
  {
    var flag := NewResource(db, name, repoId, FlagKind([]));
    var repo := GetRepo(db, repoId);
    if repo.Err? { return false; }
    var found := GetByName(db, repo.value.kind.flagIds, name, FlagMember);
    if found != NotNamed { return false; }
    var k := repo.value.kind;
    db.SetResourceKind(repo.value, k.(flagIds := k.flagIds + [flag.id]));
    ok := true;
  }

  method DbCreateDockerImage(db: InMemClient, name: string, repoId: Id) returns (ok: bool)
    requires db.Valid()
    modifies db, db.Repr
    ensures db.Valid() && old(db.uniqueId) + 1 !in old(db.state) && fresh(db.Repr - old(db.Repr))
    ensures Outcome(db.state, ok) == ScanLinks.CreateDockerImage(old(db.state), name, repoId, old(db.uniqueId) + 1)
  {
    var repo := GetRepo(db, repoId);
    if repo.Err? { FreshId(db); return false; }
    var image := NewResource(db, name, repoId, DockerImageKind([]));
    LiveRecord(db, repo.value);
    var found := GetByName(db, repo.value.kind.dockerImageIds, name, ImageMember);
    if found != NotNamed { return false; }
    var k := repo.value.kind;
    db.SetResourceKind(repo.value, k.(dockerImageIds := k.dockerImageIds + [image.id]));
    ok := true;
  }

  /** Every object is where it was. */
  ghost predicate KeepsObjects(before: map<Id, Object>, after: map<Id, Object>) {
    forall x {:trigger before[x]} :: x in before ==> x in after && after[x] == before[x]
  }

  /** NewInMemScanParameterValue: a parameter value under a new id. */
  method NewParameterValue(db: InMemClient) returns (id: Id)
    requires db.Valid()
    modifies db
    ensures db.Valid() && fresh(db.Repr - old(db.Repr)) && db.Repr >= old(db.Repr)
    ensures id == old(db.uniqueId) + 1 == db.uniqueId && id !in old(db.state)
    ensures db.state == old(db.state)[id := ParameterRec]
    ensures KeepsObjects(old(db.objects), db.objects)
    ensures db.userIds == old(db.userIds) && db.cells == old(db.cells)
  {
    id := db.CreateUniqueDbObjectId();
    var parameter := new ParameterValue(id);
    db.StoreParameter(parameter);
  }

  lemma OneMoreNew(s: State, first: Id, n: nat)
    ensures ScanLinks.NextIds(first, n + 1) == ScanLinks.NextIds(first, n) + [first + n]
    ensures ScanLinks.WithValues(s, ScanLinks.NextIds(first, n))[first + n := ParameterRec]
         == ScanLinks.WithValues(s, ScanLinks.NextIds(first, n + 1))
  {
    var a, b := ScanLinks.NextIds(first, n), ScanLinks.NextIds(first, n + 1);
    assert b == a + [first + n];
    forall x ensures x in b <==> x in a || x == first + n { assert x == first + n ==> b[n] == x; }
  }

  /** The loop of dbCreateScanEvent over the parameter names. */
  method NewParameterValues(db: InMemClient, n: nat) returns (ids: seq<Id>)
    requires db.Valid()
    modifies db
    ensures db.Valid() && fresh(db.Repr - old(db.Repr)) && db.Repr >= old(db.Repr)
    ensures db.uniqueId == old(db.uniqueId) + n && ids == ScanLinks.NextIds(old(db.uniqueId) + 1, n)
    ensures db.state == ScanLinks.WithValues(old(db.state), ids)
    ensures KeepsObjects(old(db.objects), db.objects)
    ensures db.userIds == old(db.userIds) && db.cells == old(db.cells)
  {
    ids := [];
    var i := 0;
    while i < n
      invariant 0 <= i <= n
      invariant db.Valid() && fresh(db.Repr - old(db.Repr)) && db.Repr >= old(db.Repr)
      invariant db.uniqueId == old(db.uniqueId) + i && ids == ScanLinks.NextIds(old(db.uniqueId) + 1, i)
      invariant db.state == ScanLinks.WithValues(old(db.state), ids)
      invariant KeepsObjects(old(db.objects), db.objects)
      invariant db.userIds == old(db.userIds) && db.cells == old(db.cells)
    {
      OneMoreNew(old(db.state), old(db.uniqueId) + 1, i);
      var id := NewParameterValue(db);
      ids := ids + [id];
      i := i + 1;
    }
  }

  /** NewInMemScanEvent: an event under a new id, naming its config and its parameter values. */
  method NewScanEvent(db: InMemClient, scanConfigId: Id, valueIds: seq<Id>) returns (event: ScanEvent)
    requires db.Valid()
    modifies db
    ensures db.Valid() && fresh(event) && fresh(db.Repr - old(db.Repr))
    ensures event.id == old(db.uniqueId) + 1 && event.id !in old(db.state)
    ensures db.state == old(db.state)[event.id := ScanEventRec(scanConfigId, valueIds)]
    ensures KeepsObjects(old(db.objects), db.objects)
    ensures db.userIds == old(db.userIds) && db.cells == old(db.cells)
  {
    var id := db.CreateUniqueDbObjectId();
    event := new ScanEvent(id, scanConfigId, valueIds);
    db.StoreScanEvent(event);
  }

  /** The ids of the parameter values are new, and so is the one behind them. */
  lemma NextIdsAreNew(db: InMemClient, n: nat)
    requires db.Valid()
    ensures db.uniqueId + n + 1 !in db.state
    ensures ScanLinks.FreshValues(db.state, ScanLinks.NextIds(db.uniqueId + 1, n), db.uniqueId + n + 1)
  {
    forall id | id in db.objects ensures id <= db.uniqueId { var o := db.objects[id]; }
  }

  /** dbCreateScanEvent from where the parameter values have been stored in `s`. */
  method StoreEventOf(db: InMemClient, ghost s: State, ghost newId: Id,
                      scanConfigId: Id, userObjId: Id, versionLive: bool, ids: seq<Id>) returns (ok: bool)
    requires db.Valid() && db.state == ScanLinks.WithValues(s, ids)
    requires newId == db.uniqueId + 1 && newId !in s && newId !in ids
    modifies db, db.Repr
    ensures db.Valid() && fresh(db.Repr - old(db.Repr))
    ensures Outcome(db.state, ok) == ScanLinks.CreateScanEvent(s, scanConfigId, userObjId, versionLive, ids, newId)
  {
    ok := StoreEvent(db, scanConfigId, userObjId, versionLive, ids);
  }

  /** dbCreateScanEvent, for `n` parameters. */
  method DbCreateScanEvent(db: InMemClient, n: nat, scanConfigId: Id, userObjId: Id, versionLive: bool) returns (ok: bool)
    requires db.Valid()
    modifies db, db.Repr
    ensures db.Valid() && fresh(db.Repr - old(db.Repr))
    ensures var ids, newId := ScanLinks.NextIds(old(db.uniqueId) + 1, n), old(db.uniqueId) + n + 1;
      && newId !in old(db.state) && newId !in ids
      && Outcome(db.state, ok) == ScanLinks.CreateScanEvent(old(db.state), scanConfigId, userObjId, versionLive, ids, newId)
  {
    NextIdsAreNew(db, n);
    ghost var s, newId := db.state, db.uniqueId + n + 1;
    var ids := NewParameterValues(db, n);
    ok := StoreEventOf(db, s, newId, scanConfigId, userObjId, versionLive, ids);
  }

  /** The part of dbCreateScanEvent behind the loop: the config, the event, the user and the config's list. */
  method StoreEvent(db: InMemClient, scanConfigId: Id, userObjId: Id, versionLive: bool, ids: seq<Id>) returns (ok: bool)
    requires db.Valid()
    modifies db, db.Repr
    ensures db.Valid() && fresh(db.Repr - old(db.Repr))
    ensures old(db.uniqueId) + 1 !in old(db.state)
    ensures Outcome(db.state, ok)
         == ScanLinks.StoreEvent(old(db.state), scanConfigId, userObjId, versionLive, ids, old(db.uniqueId) + 1)
  {
    FreshId(db);
    var config := GetScanConfig(db, scanConfigId);
    if config.Err? { return false; }
    ok := StoreAndLink(db, config.value, userObjId, versionLive, ids);
  }

  /** The event, the user and the config's list. */
  method StoreAndLink(db: InMemClient, config: Resource, userObjId: Id, versionLive: bool, ids: seq<Id>) returns (ok: bool)
    requires db.Valid() && db.LiveResource(config) && IsScanConfig(db.state, config.id) && config.kind.ScanConfigKind?
    modifies db, config`kind
    ensures db.Valid() && fresh(db.Repr - old(db.Repr)) && old(db.uniqueId) + 1 !in old(db.state)
    ensures Outcome(db.state, ok)
         == ScanLinks.StoreEvent(old(db.state), config.id, userObjId, versionLive, ids, old(db.uniqueId) + 1)
  {
    var event := NewScanEvent(db, config.id, ids);
    ok := LinkNewEvent(db, config, userObjId, versionLive, event.id);
  }

  /** The user is looked up before the config's list is changed, and the image version after it. */
  method LinkNewEvent(db: InMemClient, config: Resource, userObjId: Id, versionLive: bool, eventId: Id) returns (ok: bool)
    requires db.Valid() && db.LiveResource(config) && IsScanConfig(db.state, config.id) && config.kind.ScanConfigKind?
    modifies config`kind, db`state
    ensures db.Valid()
    ensures var s := old(db.state); var c := config.id;
      Outcome(db.state, ok) ==
        if !IsUser(s, userObjId) then Outcome(s, false)
        else Outcome(ScanLinks.WithEvents(s, c, s[c].resourceKind.scanEventIds + [eventId]), versionLive)
  {
    var user := db.GetParty(userObjId);
    if user.Err? || !user.value.kind.UserKind? { return false; }
    LinkEvent(db, config, eventId);
    ok := versionLive;
  }

  /** scanConfig.addScanEventId */
  method LinkEvent(db: InMemClient, config: Resource, eventId: Id)
    requires db.Valid() && db.LiveResource(config) && config.kind.ScanConfigKind?
    modifies config`kind, db`state
    ensures db.Valid() && IsScanConfig(old(db.state), config.id)
    ensures var s := old(db.state);
      db.state == ScanLinks.WithEvents(s, config.id, s[config.id].resourceKind.scanEventIds + [eventId])
  {
    LiveRecord(db, config);
    var k := config.kind;
    db.SetResourceKind(config, k.(scanEventIds := k.scanEventIds + [eventId]));
  }

  method DbCreateScanParameterValue(db: InMemClient, configId: Id) returns (ok: bool)
    requires db.Valid()
    modifies db, db.Repr
    ensures db.Valid() && old(db.uniqueId) + 1 !in old(db.state) && fresh(db.Repr - old(db.Repr))
    ensures Outcome(db.state, ok) == ScanLinks.CreateParameter(old(db.state), configId, old(db.uniqueId) + 1)
  {
    FreshId(db);
    var config := GetScanConfig(db, configId);
    if config.Err? { return false; }
    var id := NewParameterValue(db);
    ghost var repr := db.Repr;
    LinkParameter(db, config.value, id);
    assert db.Repr == repr;
    ok := true;
  }

  /** scanConfig.addParameterValueId */
  method LinkParameter(db: InMemClient, config: Resource, id: Id)
    requires db.Valid() && db.LiveResource(config) && config.kind.ScanConfigKind?
    modifies config`kind, db`state
    ensures db.Valid() && IsScanConfig(old(db.state), config.id)
    ensures var s := old(db.state);
      db.state == ScanLinks.WithParameters(s, config.id, s[config.id].resourceKind.parameterValueIds + [id])
  {
    LiveRecord(db, config);
    var k := config.kind;
    db.SetResourceKind(config, k.(parameterValueIds := k.parameterValueIds + [id]));
  }

  // ----- Deletion -----

  /** scanConfig.deleteScanEventId */
  method UnlinkEvent(db: InMemClient, config: Resource, eventId: Id)
    requires db.Valid() && db.LiveResource(config) && config.kind.ScanConfigKind?
    modifies config`kind, db`state
    ensures db.Valid() && IsScanConfig(old(db.state), config.id)
    ensures var s := old(db.state);
      db.state == ScanLinks.WithEvents(s, config.id, RemoveFrom(eventId, s[config.id].resourceKind.scanEventIds))
  {
    LiveRecord(db, config);
    var k := config.kind;
    db.SetResourceKind(config, k.(scanEventIds := RemoveFrom(eventId, k.scanEventIds)));
  }

  /** user.deleteEvent on a scan event */
  method DeleteScanEvent(db: InMemClient, eventId: Id) returns (ok: bool)
    requires db.Valid()
    modifies db`state, db`objects, db`cells, db.Repr
    ensures db.Valid()
    ensures Outcome(db.state, ok) == ScanLinks.DeleteScanEvent(old(db.state), eventId)
  {
    var event := db.GetScanEvent(eventId);
    if event.Err? { return false; }
    var config := GetScanConfig(db, event.value.scanConfigId);
    if config.Err? { return false; }
    UnlinkEvent(db, config.value, eventId);
    ok := DeleteParameters(db, event.value.valueIds);
    if ok { db.DeleteObject(eventId); }
  }

  /** The first loop of deleteScanConfig. */
  method NullifyEvents(db: InMemClient, events: seq<Id>) returns (ok: bool)
    requires db.Valid()
    modifies db`state, db.Repr
    ensures db.Valid() && db.objects == old(db.objects) && db.Repr == old(db.Repr)
    ensures Outcome(db.state, ok) == ScanLinks.NullifyEvents(old(db.state), events)
  {
    ghost var outcome := ScanLinks.NullifyEvents(db.state, events);
    var i := 0;
    while i < |events|
      invariant 0 <= i <= |events|
      invariant db.Valid() && db.objects == old(db.objects) && db.Repr == old(db.Repr)
      invariant ScanLinks.NullifyEvents(db.state, events[i..]) == outcome
    {
      var event := db.GetScanEvent(events[i]);
      if event.Err? { return false; }
      db.SetScanConfigId(event.value, NO_ID);
      i := i + 1;
    }
    ok := true;
  }

  /** The loop of deleteAllParameterValues. */
  method DeleteParameters(db: InMemClient, ids: seq<Id>) returns (ok: bool)
    requires db.Valid()
    modifies db`state, db`objects, db`cells
    ensures db.Valid() && KeepsResourceObjects(old(db.objects), db.objects)
    ensures Outcome(db.state, ok) == ScanLinks.DeleteParameters(old(db.state), ids)
  {
    ghost var outcome := ScanLinks.DeleteParameters(db.state, ids);
    var i := 0;
    while i < |ids|
      invariant 0 <= i <= |ids|
      invariant db.Valid() && KeepsResourceObjects(old(db.objects), db.objects)
      invariant ScanLinks.DeleteParameters(db.state, ids[i..]) == outcome
    {
      var parameter := db.GetParameterValue(ids[i]);
      if parameter.Err? { return false; }
      db.DeleteObject(ids[i]);
      i := i + 1;
    }
    ok := true;
  }

  method DeleteAllParameterValues(db: InMemClient, config: Resource)
    requires db.Valid() && db.LiveResource(config) && config.kind.ScanConfigKind?
    modifies db`state, db`objects, db`cells, config`kind
    ensures db.Valid() && KeepsResourceObjects(old(db.objects), db.objects)
    ensures IsScanConfig(old(db.state), config.id)
    ensures db.state == ScanLinks.DeleteAllParameters(old(db.state), config.id)
  {
    LiveRecord(db, config);
    var done := DeleteParameters(db, config.kind.parameterValueIds);
    assert old(db.objects[config.id]) == ResourceObj(config);
    LiveRecord(db, config);
    if done { db.SetResourceKind(config, config.kind.(parameterValueIds := [])); }
  }

  /** The loop of deleteScanConfig over the images. */
  method UnlinkImages(db: InMemClient, config: Resource, images: seq<Id>) returns (ok: bool)
    requires db.Valid() && db.LiveResource(config) && config.kind.ScanConfigKind?
    modifies db`state, db.Repr
    ensures db.Valid() && db.objects == old(db.objects) && db.Repr == old(db.Repr)
    ensures IsScanConfig(old(db.state), config.id)
    ensures Outcome(db.state, ok) == ScanLinks.UnlinkImages(old(db.state), config.id, images)
  {
    LiveRecord(db, config);
    ghost var outcome := ScanLinks.UnlinkImages(db.state, config.id, images);
    var i := 0;
    while i < |images|
      invariant 0 <= i <= |images|
      invariant db.Valid() && db.objects == old(db.objects) && db.Repr == old(db.Repr)
      invariant IsScanConfig(db.state, config.id) && config.kind.ScanConfigKind?
      invariant ScanLinks.UnlinkImages(db.state, config.id, images[i..]) == outcome
    {
      ok := RemDockerImage(db, config, images[i]);
      if !ok { return; }
      LiveRecord(db, config);
      i := i + 1;
    }
    ok := true;
  }

  /** The part of deleteScanConfig that takes the config out of its flag and its images. */
  method Unlink(db: InMemClient, config: Resource) returns (ok: bool)
    requires db.Valid() && db.LiveResource(config) && config.kind.ScanConfigKind?
    modifies db`state, db.Repr
    ensures db.Valid() && db.objects == old(db.objects) && db.Repr == old(db.Repr)
    ensures IsScanConfig(old(db.state), config.id)
    ensures Outcome(db.state, ok) == ScanLinks.Unlink(old(db.state), config.id)
  {
    LiveRecord(db, config);
    if config.kind.flagId != NO_ID {
      var flag := GetFlag(db, config.kind.flagId);
      if flag.Err? { return false; }
      RemoveScanConfigRef(db, flag.value, config.id);
      LiveRecord(db, config);
    }
    ok := UnlinkImages(db, config, config.kind.dockerImageIdsThatUse);
  }

  method DeleteScanConfig(db: InMemClient, repo: Resource, config: Resource) returns (ok: bool)
    requires db.Valid() && db.LiveResource(repo) && repo.kind.RepoKind?
    requires db.LiveResource(config) && config.kind.ScanConfigKind?
    modifies db`state, db`objects, db`cells, db.Repr
    ensures db.Valid() && IsRepo(old(db.state), repo.id) && IsScanConfig(old(db.state), config.id)
    ensures Outcome(db.state, ok) == ScanLinks.DeleteScanConfig(old(db.state), repo.id, config.id)
  {
    LiveRecord(db, config);
    LiveRecord(db, repo);
    ok := NullifyEvents(db, config.kind.scanEventIds);
    if !ok { return; }
    LiveRecord(db, config);
    DeleteAllParameterValues(db, config);
    assert old(db.objects[config.id]) == ResourceObj(config) && old(db.objects[repo.id]) == ResourceObj(repo);
    LiveRecord(db, config);
    assert IsRepo(db.state, repo.id);
    ok := Unlink(db, config);
    if !ok { return; }
    assert IsRepo(db.state, repo.id);
    ok := DropConfig(db, repo, config);
  }

  /** The end of deleteScanConfig: the repo's list, the access list, and the object. */
  method DropConfig(db: InMemClient, repo: Resource, config: Resource) returns (ok: bool)
    requires db.Valid() && db.LiveResource(repo) && db.LiveResource(config)
    requires IsRepo(db.state, repo.id) && IsScanConfig(db.state, config.id)
    modifies db`state, db`objects, db`cells, db.Repr
    ensures db.Valid()
    ensures var s := old(db.state); var k := s[repo.id].resourceKind;
      var o := Access.DeleteAllAccess(
          ScanLinks.WithRepoKind(s, repo.id, k.(scanConfigIds := RemoveFrom(config.id, k.scanConfigIds))), config.id);
      Outcome(db.state, ok) == if !o.ok then o else Outcome(o.state - {config.id}, true)
  {
    LiveRecord(db, repo);
    var k := repo.kind;
    db.SetResourceKind(repo, k.(scanConfigIds := RemoveFrom(config.id, k.scanConfigIds)));
    ok := AccessMethods.DeleteAllAccessToResource(db, config);
    if ok { db.DeleteObject(config.id); }
  }

  method DeleteFlag(db: InMemClient, repo: Resource, flag: Resource, fileRemoved: bool) returns (ok: bool)
    requires db.Valid() && db.LiveResource(repo) && repo.kind.RepoKind?
    requires db.LiveResource(flag) && flag.kind.FlagKind?
    modifies db`state, db`objects, db`cells, db.Repr
    ensures db.Valid() && IsRepo(old(db.state), repo.id) && IsFlag(old(db.state), flag.id)
    ensures Outcome(db.state, ok) == ScanLinks.DeleteFlag(old(db.state), repo.id, flag.id, fileRemoved)
  {
    LiveRecord(db, flag);
    LiveRecord(db, repo);
    if |flag.kind.usedByScanConfigIds| > 0 { return false; }
    if !fileRemoved { return false; }
    var k := repo.kind;
    db.SetResourceKind(repo, k.(flagIds := RemoveFrom(flag.id, k.flagIds)));
    ok := AccessMethods.DeleteAllAccessToResource(db, flag);
    if ok { db.DeleteObject(flag.id); }
  }

  /** The loop of deleteDockerImage over the scan configs. */
  method UnlinkConfigs(db: InMemClient, imageId: Id, configs: seq<Id>) returns (ok: bool)
    requires db.Valid()
    modifies db`state, db.Repr
    ensures db.Valid() && db.objects == old(db.objects) && db.Repr == old(db.Repr)
    ensures Outcome(db.state, ok) == ScanLinks.UnlinkConfigs(old(db.state), imageId, configs)
  {
    ghost var outcome := ScanLinks.UnlinkConfigs(db.state, imageId, configs);
    var i := 0;
    while i < |configs|
      invariant 0 <= i <= |configs|
      invariant db.Valid() && db.objects == old(db.objects) && db.Repr == old(db.Repr)
      invariant ScanLinks.UnlinkConfigs(db.state, imageId, configs[i..]) == outcome
    {
      var config := GetScanConfig(db, configs[i]);
      if config.Err? { return false; }
      ok := RemDockerImage(db, config.value, imageId);
      if !ok { return; }
      i := i + 1;
    }
    ok := true;
  }

  method DeleteDockerImage(db: InMemClient, repo: Resource, image: Resource, versionsDeleted: bool) returns (ok: bool)
    requires db.Valid() && db.LiveResource(repo) && repo.kind.RepoKind?
    requires db.LiveResource(image) && image.kind.DockerImageKind?
    modifies db`state, db`objects, db`cells, db.Repr
    ensures db.Valid() && IsRepo(old(db.state), repo.id) && IsImage(old(db.state), image.id)
    ensures Outcome(db.state, ok) == ScanLinks.DeleteDockerImage(old(db.state), repo.id, image.id, versionsDeleted)
  {
    LiveRecord(db, image);
    LiveRecord(db, repo);
    if !versionsDeleted { return false; }
    ghost var configs := image.kind.scanConfigsToUse;
    ok := AccessMethods.DeleteAllAccessToResource(db, image);
    if !ok { return; }
    assert old(db.objects[image.id]) == ResourceObj(image) && old(db.objects[repo.id]) == ResourceObj(repo);
    LiveRecord(db, image);
    LiveRecord(db, repo);
    assert image.kind.scanConfigsToUse == configs && IsRepo(db.state, repo.id);
    ok := UnlinkConfigs(db, image.id, image.kind.scanConfigsToUse);
    if !ok { return; }
    assert IsRepo(db.state, repo.id);
    LiveRecord(db, repo);
    var k := repo.kind;
    db.SetResourceKind(repo, k.(dockerImageIds := RemoveFrom(image.id, k.dockerImageIds)));
    db.DeleteObject(image.id);
    ok := true;
  }
}
