/**
The links of a scan config: to its flag, to the images that use it, to its scan events, and from its repo. Each
link is kept on both sides, and each operation changes the two sides in separate steps.
*/
module ScanLinks {
  import opened Basics
  import opened ObjectStore
  import opened Access
  import opened Names

  // ----- The two sides, one list at a time -----

  function WithFlag(s: State, c: Id, f: Id): State
    requires IsScanConfig(s, c)
  {
    s[c := s[c].(resourceKind := s[c].resourceKind.(flagId := f))]
  }

  function WithUsedBy(s: State, f: Id, ids: seq<Id>): State
    requires IsFlag(s, f)
  {
    s[f := s[f].(resourceKind := FlagKind(ids))]
  }

  function WithImages(s: State, c: Id, ids: seq<Id>): State
    requires IsScanConfig(s, c)
  {
    s[c := s[c].(resourceKind := s[c].resourceKind.(dockerImageIdsThatUse := ids))]
  }

  function WithConfigs(s: State, i: Id, ids: seq<Id>): State
    requires IsImage(s, i)
  {
    s[i := s[i].(resourceKind := DockerImageKind(ids))]
  }

  function WithEvents(s: State, c: Id, ids: seq<Id>): State
    requires IsScanConfig(s, c)
  {
    s[c := s[c].(resourceKind := s[c].resourceKind.(scanEventIds := ids))]
  }

  function WithParameters(s: State, c: Id, ids: seq<Id>): State
    requires IsScanConfig(s, c)
  {
    s[c := s[c].(resourceKind := s[c].resourceKind.(parameterValueIds := ids))]
  }

  function WithRepoKind(s: State, r: Id, k: ResourceKind): State
    requires IsRepo(s, r) && k.RepoKind?
  {
    s[r := s[r].(resourceKind := k)]
  }

  /** Two resources that agree in all but what their kind adds. */
  predicate SameButKind(a: Record, b: Record) {
    a.ResourceRec? && b.ResourceRec? && a.name == b.name && a.parentId == b.parentId && a.acl == b.acl
  }

  // ----- Flags -----

  /** flag.removeScanConfigRef and flag.addScanConfigRef */
  function RemoveRef(s: State, f: Id, c: Id): State
    requires IsFlag(s, f)
  {
    WithUsedBy(s, f, RemoveFrom(c, s[f].resourceKind.usedByScanConfigIds))
  }

  function AddRef(s: State, f: Id, c: Id): State
    requires IsFlag(s, f)
  {
    WithUsedBy(s, f, AddUniquely(c, s[f].resourceKind.usedByScanConfigIds))
  }

  /** scanConfig.setFlagId */
  function SetFlagId(s: State, c: Id, newFlag: Id): Outcome
    requires IsScanConfig(s, c)
  {
    var oldFlag := s[c].resourceKind.flagId;
    if oldFlag == newFlag then Outcome(s, true)
    else if !IsFlag(s, newFlag) || (oldFlag != NO_ID && !IsFlag(s, oldFlag)) then Outcome(s, false)
    else
      var s1 := if oldFlag != NO_ID then RemoveRef(s, oldFlag, c) else s;
      Outcome(AddRef(WithFlag(s1, c, newFlag), newFlag, c), true)
  }

  // ----- Images -----

  /** scanConfig.addDockerImage: the config's own list is changed before the image is looked up. */
  function AddDockerImage(s: State, c: Id, i: Id): Outcome
    requires IsScanConfig(s, c)
  {
    var s1 := WithImages(s, c, AddUniquely(i, s[c].resourceKind.dockerImageIdsThatUse));
    if !IsImage(s1, i) then Outcome(s1, false)
    else Outcome(WithConfigs(s1, i, AddUniquely(c, s1[i].resourceKind.scanConfigsToUse)), true)
  }

  /** scanConfig.remDockerImage, likewise. */
  function RemDockerImage(s: State, c: Id, i: Id): (o: Outcome)
    requires IsScanConfig(s, c)
    ensures IsScanConfig(o.state, c)
  {
    var s1 := WithImages(s, c, RemoveFrom(i, s[c].resourceKind.dockerImageIdsThatUse));
    if !IsImage(s1, i) then Outcome(s1, false)
    else Outcome(WithConfigs(s1, i, RemoveFrom(c, s1[i].resourceKind.scanConfigsToUse)), true)
  }

  // ----- Creation; `newId` is the id the counter hands out -----

  /**
  dbCreateScanConfig: the config is stored with its flag id before the flag is looked up. The second search by name, in
  addScanConfig, goes over the same list as the first and finds nothing either.
  */
  function CreateScanConfig(s: State, name: string, repoId: Id, parameterIds: seq<Id>, flagId: Id, newId: Id): Outcome
    requires newId !in s
  {
    if !IsRepo(s, repoId) then Outcome(s, false)
    else if FindByName(s, s[repoId].resourceKind.scanConfigIds, name, ScanConfigMember) != NotNamed then Outcome(s, false)
    else
      var s1 := s[newId := ResourceRec(name, repoId, [], ScanConfigKind(parameterIds, flagId, [], []))];
      if flagId != NO_ID && !IsFlag(s1, flagId) then Outcome(s1, false)
      else
        var s2 := if flagId != NO_ID then AddRef(s1, flagId, newId) else s1;
        var k := s2[repoId].resourceKind;
        Outcome(WithRepoKind(s2, repoId, k.(scanConfigIds := k.scanConfigIds + [newId])), true)
  }

  /** dbCreateFlag: the flag is stored before the repo is looked up and the name is checked. */
  function CreateFlag(s: State, name: string, repoId: Id, newId: Id): Outcome
    requires newId !in s
  {
    var s1 := s[newId := ResourceRec(name, repoId, [], FlagKind([]))];
    if !IsRepo(s1, repoId) then Outcome(s1, false)
    else if FindByName(s1, s1[repoId].resourceKind.flagIds, name, FlagMember) != NotNamed then Outcome(s1, false)
    else
      var k := s1[repoId].resourceKind;
      Outcome(WithRepoKind(s1, repoId, k.(flagIds := k.flagIds + [newId])), true)
  }

  /** dbCreateDockerImage: the image is stored before the name is checked. */
  function CreateDockerImage(s: State, name: string, repoId: Id, newId: Id): Outcome
    requires newId !in s
  {
    if !IsRepo(s, repoId) then Outcome(s, false)
    else
      var s1 := s[newId := ResourceRec(name, repoId, [], DockerImageKind([]))];
      if FindByName(s1, s1[repoId].resourceKind.dockerImageIds, name, ImageMember) != NotNamed then Outcome(s1, false)
      else
        var k := s1[repoId].resourceKind;
        Outcome(WithRepoKind(s1, repoId, k.(dockerImageIds := k.dockerImageIds + [newId])), true)
  }

  /** dbCreateScanParameterValue */
  function CreateParameter(s: State, c: Id, newId: Id): Outcome
    requires newId !in s
  {
    if !IsScanConfig(s, c) then Outcome(s, false)
    else Outcome(WithParameters(s[newId := ParameterRec], c, s[c].resourceKind.parameterValueIds + [newId]), true)
  }

  /** The ids the counter hands out, from `first` on. */
  function NextIds(first: Id, n: nat): seq<Id> { seq(n, i => first + i) }

  /** New parameter values under these ids. */
  function WithValues(s: State, ids: seq<Id>): State { s + map v | v in ids :: ParameterRec }

  /** The ids are new, and handed out once. */
  ghost predicate FreshValues(s: State, ids: seq<Id>, newId: Id) {
    NoDup(ids) && newId !in ids && forall v :: v in ids ==> v !in s && v != NO_ID
  }

  /**
  The part of dbCreateScanEvent behind its loop: the event is stored, naming its values and the config, before the user is
  looked up; then it is linked to the config, and last to the image version. `versionLive` says whether the image version
  is found.
  */
  function StoreEvent(s: State, c: Id, u: Id, versionLive: bool, values: seq<Id>, newId: Id): Outcome
    requires newId !in s
  {
    if !IsScanConfig(s, c) then Outcome(s, false)
    else
      var s2 := s[newId := ScanEventRec(c, values)];
      if !IsUser(s2, u) then Outcome(s2, false)
      else Outcome(WithEvents(s2, c, s2[c].resourceKind.scanEventIds + [newId]), versionLive)
  }

  /** dbCreateScanEvent: the actual parameter values are stored first, before the config is looked up. */
  function CreateScanEvent(s: State, c: Id, u: Id, versionLive: bool, values: seq<Id>, newId: Id): Outcome
    requires newId !in s && newId !in values
  {
    StoreEvent(WithValues(s, values), c, u, versionLive, values, newId)
  }

  // ----- Deletion -----

  /** The resources of `s` are in `t` as they were. */
  ghost predicate KeepsResources(s: State, t: State) {
    forall x {:trigger IsResource(s, x)} :: IsResource(s, x) ==> IsResource(t, x) && t[x] == s[x]
  }

  /** The config of an event no longer lists it. */
  function DropEvent(s: State, e: Id): State
    requires IsScanEvent(s, e) && IsScanConfig(s, s[e].scanConfigId)
  {
    WithEvents(s, s[e].scanConfigId, RemoveFrom(e, s[s[e].scanConfigId].resourceKind.scanEventIds))
  }

  /** user.deleteEvent on a scan event: the config's list first, then the actual parameter values, then the event. */
  function DeleteScanEvent(s: State, e: Id): Outcome {
    if !IsScanEvent(s, e) || !IsScanConfig(s, s[e].scanConfigId) then Outcome(s, false)
    else
      var o := DeleteParameters(DropEvent(s, e), s[e].valueIds);
      if !o.ok then o else Outcome(o.state - {e}, true)
  }

  /** The first loop of deleteScanConfig: the events no longer name the config. */
  function NullifyEvents(s: State, events: seq<Id>): (o: Outcome)
    ensures KeepsResources(s, o.state)
  {
    if events == [] then Outcome(s, true)
    else if !IsScanEvent(s, events[0]) then Outcome(s, false)
    else
      var s1 := s[events[0] := s[events[0]].(scanConfigId := NO_ID)];
      assert KeepsResources(s, s1);
      NullifyEvents(s1, events[1..])
  }

  /** The loops of deleteAllParameterValues, of scan configs and of scan events. */
  function DeleteParameters(s: State, ids: seq<Id>): (o: Outcome)
    ensures KeepsResources(s, o.state)
  {
    if ids == [] then Outcome(s, true)
    else if !IsParameter(s, ids[0]) then Outcome(s, false)
    else
      var s1 := s - {ids[0]};
      assert KeepsResources(s, s1);
      DeleteParameters(s1, ids[1..])
  }

  /** deleteAllParameterValues; deleteScanConfig goes on whatever it returns. */
  function DeleteAllParameters(s: State, c: Id): (t: State)
    requires IsScanConfig(s, c)
    ensures IsScanConfig(t, c) && forall x {:trigger IsRepo(s, x)} :: IsRepo(s, x) ==> IsRepo(t, x)
  {
    var o := DeleteParameters(s, s[c].resourceKind.parameterValueIds);
    assert IsResource(s, c);
    assert forall x :: IsRepo(s, x) ==> IsResource(s, x);
    if o.ok then WithParameters(o.state, c, []) else o.state
  }

  /** The loop of deleteScanConfig over the images that use the config. */
  function UnlinkImages(s: State, c: Id, images: seq<Id>): (o: Outcome)
    requires IsScanConfig(s, c)
    ensures IsScanConfig(o.state, c) && forall x {:trigger IsRepo(s, x)} :: IsRepo(s, x) ==> IsRepo(o.state, x)
  {
    if images == [] then Outcome(s, true)
    else
      var o := RemDockerImage(s, c, images[0]);
      assert forall x :: IsRepo(s, x) ==> IsRepo(o.state, x);
      if !o.ok then o else UnlinkImages(o.state, c, images[1..])
  }

  /** The part of deleteScanConfig that takes the config out of its flag and its images. */
  function Unlink(s: State, c: Id): (o: Outcome)
    requires IsScanConfig(s, c)
    ensures IsScanConfig(o.state, c) && forall x {:trigger IsRepo(s, x)} :: IsRepo(s, x) ==> IsRepo(o.state, x)
  {
    var f := s[c].resourceKind.flagId;
    if f != NO_ID && !IsFlag(s, f) then Outcome(s, false)
    else
      var s1 := if f != NO_ID then RemoveRef(s, f, c) else s;
      assert forall x :: IsRepo(s, x) ==> IsRepo(s1, x);
      UnlinkImages(s1, c, s1[c].resourceKind.dockerImageIdsThatUse)
  }

  /** repo.deleteScanConfig */
  function DeleteScanConfig(s: State, repoId: Id, c: Id): Outcome
    requires IsRepo(s, repoId) && IsScanConfig(s, c)
  {
    var o1 := NullifyEvents(s, s[c].resourceKind.scanEventIds);
    assert IsResource(s, c) && IsResource(s, repoId);
    if !o1.ok then o1 else
    var s2 := DeleteAllParameters(o1.state, c);
    var o3 := Unlink(s2, c);
    if !o3.ok then o3 else
    var k := o3.state[repoId].resourceKind;
    var o4 := DeleteAllAccess(WithRepoKind(o3.state, repoId, k.(scanConfigIds := RemoveFrom(c, k.scanConfigIds))), c);
    if !o4.ok then o4 else Outcome(o4.state - {c}, true)
  }

  /** repo.deleteFlag; `fileRemoved` says whether the graphic file could be removed. */
  function DeleteFlag(s: State, repoId: Id, f: Id, fileRemoved: bool): Outcome
    requires IsRepo(s, repoId) && IsFlag(s, f)
  {
    if s[f].resourceKind.usedByScanConfigIds != [] || !fileRemoved then Outcome(s, false)
    else
      var k := s[repoId].resourceKind;
      var o := DeleteAllAccess(WithRepoKind(s, repoId, k.(flagIds := RemoveFrom(f, k.flagIds))), f);
      if !o.ok then o else Outcome(o.state - {f}, true)
  }

  /** The loop of deleteDockerImage over the scan configs of the image. */
  function UnlinkConfigs(s: State, i: Id, configs: seq<Id>): (o: Outcome)
    ensures forall x {:trigger IsRepo(s, x)} :: IsRepo(s, x) ==> IsRepo(o.state, x)
  {
    if configs == [] then Outcome(s, true)
    else if !IsScanConfig(s, configs[0]) then Outcome(s, false)
    else
      var o := RemDockerImage(s, configs[0], i);
      assert forall x :: IsRepo(s, x) ==> IsRepo(o.state, x);
      if !o.ok then o else UnlinkConfigs(o.state, i, configs[1..])
  }

  /** repo.deleteDockerImage; `versionsDeleted` is the outcome of deleting the image's versions. */
  function DeleteDockerImage(s: State, repoId: Id, i: Id, versionsDeleted: bool): Outcome
    requires IsRepo(s, repoId) && IsImage(s, i)
  {
    if !versionsDeleted then Outcome(s, false) else
    var o1 := DeleteAllAccess(s, i);
    assert IsResource(s, repoId) && IsRepo(o1.state, repoId);
    if !o1.ok then o1 else
    var o2 := UnlinkConfigs(o1.state, i, s[i].resourceKind.scanConfigsToUse);
    if !o2.ok then o2 else
    var k := o2.state[repoId].resourceKind;
    Outcome(WithRepoKind(o2.state, repoId, k.(dockerImageIds := RemoveFrom(i, k.dockerImageIds))) - {i}, true)
  }

  // ----- The two sides of each link -----

  predicate UsesFlag(s: State, c: Id, f: Id) {
    IsScanConfig(s, c) && f != NO_ID && s[c].resourceKind.flagId == f
  }

  predicate FlagLists(s: State, f: Id, c: Id) {
    IsFlag(s, f) && c in s[f].resourceKind.usedByScanConfigIds
  }

  predicate UsesImage(s: State, c: Id, i: Id) {
    IsScanConfig(s, c) && i in s[c].resourceKind.dockerImageIdsThatUse
  }

  predicate ImageLists(s: State, i: Id, c: Id) {
    IsImage(s, i) && c in s[i].resourceKind.scanConfigsToUse
  }

  predicate EventNames(s: State, e: Id, c: Id) {
    IsScanEvent(s, e) && c != NO_ID && s[e].scanConfigId == c
  }

  predicate ConfigListsEvent(s: State, c: Id, e: Id) {
    IsScanConfig(s, c) && e in s[c].resourceKind.scanEventIds
  }

  predicate RepoLists(s: State, r: Id, x: Id) {
    && IsRepo(s, r)
    && var k := s[r].resourceKind; x in k.scanConfigIds || x in k.flagIds || x in k.dockerImageIds
  }

  /** A config names a flag exactly when the flag lists the config, once. */
  ghost predicate FlagsOk(s: State) {
    && (forall c, f {:trigger UsesFlag(s, c, f)} :: UsesFlag(s, c, f) ==> FlagLists(s, f, c))
    && (forall c, f {:trigger FlagLists(s, f, c)} :: FlagLists(s, f, c) ==> UsesFlag(s, c, f))
    && (forall f {:trigger IsFlag(s, f)} :: IsFlag(s, f) ==> NoDup(s[f].resourceKind.usedByScanConfigIds))
  }

  /** A config lists an image exactly when the image lists the config, each once. */
  ghost predicate ImagesOk(s: State) {
    && (forall c, i {:trigger UsesImage(s, c, i)} :: UsesImage(s, c, i) ==> ImageLists(s, i, c))
    && (forall c, i {:trigger ImageLists(s, i, c)} :: ImageLists(s, i, c) ==> UsesImage(s, c, i))
    && (forall i {:trigger IsImage(s, i)} :: IsImage(s, i) ==> NoDup(s[i].resourceKind.scanConfigsToUse))
    && (forall c {:trigger IsScanConfig(s, c)} :: IsScanConfig(s, c) ==> NoDup(s[c].resourceKind.dockerImageIdsThatUse))
  }

  /** An event names a config exactly when the config lists the event, once. */
  ghost predicate EventsOk(s: State) {
    && (forall c, e {:trigger EventNames(s, e, c)} :: EventNames(s, e, c) ==> ConfigListsEvent(s, c, e))
    && (forall c, e {:trigger ConfigListsEvent(s, c, e)} :: ConfigListsEvent(s, c, e) ==> EventNames(s, e, c))
    && (forall c {:trigger IsScanConfig(s, c)} :: IsScanConfig(s, c) ==> NoDup(s[c].resourceKind.scanEventIds))
  }

  /** A repo lists live resources of the right type that are its children, each once. */
  ghost predicate ReposOk(s: State) {
    && (forall r, x {:trigger RepoLists(s, r, x)} :: RepoLists(s, r, x) ==>
          && IsResource(s, x) && s[x].parentId == r
          && (x in s[r].resourceKind.scanConfigIds ==> IsScanConfig(s, x))
          && (x in s[r].resourceKind.flagIds ==> IsFlag(s, x))
          && (x in s[r].resourceKind.dockerImageIds ==> IsImage(s, x)))
    && (forall r {:trigger IsRepo(s, r)} :: IsRepo(s, r) ==>
          && NoDup(s[r].resourceKind.scanConfigIds) && NoDup(s[r].resourceKind.flagIds)
          && NoDup(s[r].resourceKind.dockerImageIds))
  }

  /** The parameter values of a scan config or a scan event. */
  function HeldBy(s: State, x: Id): seq<Id> {
    if IsScanConfig(s, x) then s[x].resourceKind.parameterValueIds
    else if IsScanEvent(s, x) then s[x].valueIds
    else []
  }

  predicate Holds(s: State, x: Id, v: Id) { v in HeldBy(s, x) }

  /** What a scan config or a scan event holds is a live parameter value, once, and nobody else holds it. */
  ghost predicate ValuesOk(s: State) {
    && (forall x, v {:trigger Holds(s, x, v)} :: Holds(s, x, v) ==> IsParameter(s, v))
    && (forall x, y, v {:trigger Holds(s, x, v), Holds(s, y, v)} :: Holds(s, x, v) && Holds(s, y, v) ==> x == y)
    && (forall x {:trigger HeldBy(s, x)} :: NoDup(HeldBy(s, x)))
  }

  /** Every link between two objects is on both sides. */
  ghost predicate TiesOk(s: State) {
    FlagsOk(s) && ImagesOk(s) && EventsOk(s) && ReposOk(s) && NO_ID !in s
  }

  /** The invariant of the link operations. */
  ghost predicate LinksOk(s: State) { TiesOk(s) && ValuesOk(s) }

  /** Live parameter values that nobody holds, each once. */
  ghost predicate FreeParameters(s: State, ids: seq<Id>) {
    NoDup(ids) && forall v :: v in ids ==> IsParameter(s, v) && forall x :: !Holds(s, x, v)
  }
}
