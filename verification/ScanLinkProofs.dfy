/** The link operations keep both sides of every link in step; a deleted object is named by nothing that is left. */
module ScanLinkProofs {
  import opened Basics
  import opened ObjectStore
  import opened Access
  import opened AccessProofs
  import opened ScanLinks

  // ----- Each operation touches one kind of link; the other kinds look the same before and after -----

  ghost predicate SameFlags(s: State, t: State) {
    && (forall f {:trigger IsFlag(t, f)} :: IsFlag(t, f) <==> IsFlag(s, f))
    && (forall f {:trigger IsFlag(t, f)} :: IsFlag(t, f) ==>
          t[f].resourceKind.usedByScanConfigIds == s[f].resourceKind.usedByScanConfigIds)
    && (forall c {:trigger IsScanConfig(t, c)} :: IsScanConfig(t, c) <==> IsScanConfig(s, c))
    && (forall c {:trigger IsScanConfig(t, c)} :: IsScanConfig(t, c) ==>
          t[c].resourceKind.flagId == s[c].resourceKind.flagId)
  }

  lemma FlagsStayOk(s: State, t: State)
    requires FlagsOk(s) && SameFlags(s, t)
    ensures FlagsOk(t)
  {
    forall c, f ensures UsesFlag(t, c, f) <==> UsesFlag(s, c, f) { assert IsScanConfig(t, c) <==> IsScanConfig(s, c); }
    forall c, f ensures FlagLists(t, f, c) <==> FlagLists(s, f, c) { assert IsFlag(t, f) <==> IsFlag(s, f); }
  }

  ghost predicate SameImages(s: State, t: State) {
    && (forall i {:trigger IsImage(t, i)} :: IsImage(t, i) <==> IsImage(s, i))
    && (forall i {:trigger IsImage(t, i)} :: IsImage(t, i) ==>
          t[i].resourceKind.scanConfigsToUse == s[i].resourceKind.scanConfigsToUse)
    && (forall c {:trigger IsScanConfig(t, c)} :: IsScanConfig(t, c) <==> IsScanConfig(s, c))
    && (forall c {:trigger IsScanConfig(t, c)} :: IsScanConfig(t, c) ==>
          t[c].resourceKind.dockerImageIdsThatUse == s[c].resourceKind.dockerImageIdsThatUse)
  }

  lemma ImagesStayOk(s: State, t: State)
    requires ImagesOk(s) && SameImages(s, t)
    ensures ImagesOk(t)
  {
    forall c, i ensures UsesImage(t, c, i) <==> UsesImage(s, c, i) { assert IsScanConfig(t, c) <==> IsScanConfig(s, c); }
    forall c, i ensures ImageLists(t, i, c) <==> ImageLists(s, i, c) { assert IsImage(t, i) <==> IsImage(s, i); }
  }

  ghost predicate SameEvents(s: State, t: State) {
    && (forall e {:trigger IsScanEvent(t, e)} :: IsScanEvent(t, e) <==> IsScanEvent(s, e))
    && (forall e {:trigger IsScanEvent(t, e)} :: IsScanEvent(t, e) ==> t[e] == s[e])
    && (forall c {:trigger IsScanConfig(t, c)} :: IsScanConfig(t, c) <==> IsScanConfig(s, c))
    && (forall c {:trigger IsScanConfig(t, c)} :: IsScanConfig(t, c) ==>
          t[c].resourceKind.scanEventIds == s[c].resourceKind.scanEventIds)
  }

  lemma EventsStayOk(s: State, t: State)
    requires EventsOk(s) && SameEvents(s, t)
    ensures EventsOk(t)
  {
    forall c, e ensures EventNames(t, e, c) <==> EventNames(s, e, c) { assert IsScanEvent(t, e) <==> IsScanEvent(s, e); }
    forall c, e ensures ConfigListsEvent(t, c, e) <==> ConfigListsEvent(s, c, e) {
      assert IsScanConfig(t, c) <==> IsScanConfig(s, c);
    }
  }

  /** The repo's lists of scan configs, flags and images are as they were. */
  predicate SameLists(s: State, t: State, r: Id)
    requires IsRepo(s, r) && IsRepo(t, r)
  {
    var a, b := s[r].resourceKind, t[r].resourceKind;
    a.scanConfigIds == b.scanConfigIds && a.flagIds == b.flagIds && a.dockerImageIds == b.dockerImageIds
  }

  /** Resources keep their name, their parent and their type, and repos keep their lists. */
  ghost predicate SameRepos(s: State, t: State) {
    && (forall x {:trigger IsResource(s, x)} :: IsResource(s, x) ==>
          IsResource(t, x) && t[x].parentId == s[x].parentId && t[x].name == s[x].name)
    && (forall x {:trigger IsScanConfig(s, x)} :: IsScanConfig(s, x) ==> IsScanConfig(t, x))
    && (forall x {:trigger IsFlag(s, x)} :: IsFlag(s, x) ==> IsFlag(t, x))
    && (forall x {:trigger IsImage(s, x)} :: IsImage(s, x) ==> IsImage(t, x))
    && (forall r {:trigger IsRepo(s, r)} :: IsRepo(s, r) ==> IsRepo(t, r))
    && (forall r {:trigger IsRepo(t, r)} :: IsRepo(t, r) ==> IsRepo(s, r) && SameLists(s, t, r))
  }

  lemma ReposStayOk(s: State, t: State)
    requires ReposOk(s) && SameRepos(s, t)
    ensures ReposOk(t)
  {
    forall r, x | RepoLists(t, r, x)
      ensures && IsResource(t, x) && t[x].parentId == r
              && (x in t[r].resourceKind.scanConfigIds ==> IsScanConfig(t, x))
              && (x in t[r].resourceKind.flagIds ==> IsFlag(t, x))
              && (x in t[r].resourceKind.dockerImageIds ==> IsImage(t, x))
    {
      assert IsRepo(t, r) && RepoLists(s, r, x);
    }
  }

  /** The holders have the same parameter values, and none of the values is gone. */
  ghost predicate SameValues(s: State, t: State) {
    && (forall x {:trigger HeldBy(t, x)} :: HeldBy(t, x) == HeldBy(s, x))
    && (forall v {:trigger IsParameter(s, v)} :: IsParameter(s, v) ==> IsParameter(t, v))
  }

  lemma ValuesStayOk(s: State, t: State)
    requires ValuesOk(s) && SameValues(s, t)
    ensures ValuesOk(t)
  {
    forall x, v ensures Holds(t, x, v) <==> Holds(s, x, v) { assert HeldBy(t, x) == HeldBy(s, x); }
    forall x, v | Holds(t, x, v) ensures IsParameter(t, v) { assert Holds(s, x, v) && IsParameter(s, v); }
    forall x ensures NoDup(HeldBy(t, x)) { assert HeldBy(t, x) == HeldBy(s, x); }
  }

  /** Links may differ, but the repos and the access lists look the same. */
  ghost predicate Mild(s: State, t: State) { SameRepos(s, t) && SameAccess(s, t) }

  lemma MildOk(s: State, t: State)
    requires Mild(s, t) && ReposOk(s) && Consistent(s)
    ensures ReposOk(t) && Consistent(t) && MatrixOf(t) == MatrixOf(s)
  {
    ReposStayOk(s, t);
    SameAccessConsistent(s, t);
  }

  lemma MildTwice(s: State, t: State, u: State)
    requires Mild(s, t) && Mild(t, u)
    ensures Mild(s, u)
  {
    SameReposTwice(s, t, u);
    SameAccessTwice(s, t, u);
  }

  lemma SameReposTwice(s: State, t: State, u: State)
    requires SameRepos(s, t) && SameRepos(t, u)
    ensures SameRepos(s, u)
  {
  }

  lemma SameAccessTwice(s: State, t: State, u: State)
    requires SameAccess(s, t) && SameAccess(t, u)
    ensures SameAccess(s, u)
  {
  }

  lemma SameFlagsTwice(s: State, t: State, u: State)
    requires SameFlags(s, t) && SameFlags(t, u)
    ensures SameFlags(s, u)
  {
  }

  lemma SameImagesTwice(s: State, t: State, u: State)
    requires SameImages(s, t) && SameImages(t, u)
    ensures SameImages(s, u)
  {
  }

  lemma SameEventsTwice(s: State, t: State, u: State)
    requires SameEvents(s, t) && SameEvents(t, u)
    ensures SameEvents(s, u)
  {
  }

  lemma SameValuesTwice(s: State, t: State, u: State)
    requires SameValues(s, t) && SameValues(t, u)
    ensures SameValues(s, u)
  {
    forall x ensures HeldBy(u, x) == HeldBy(s, x) { assert HeldBy(u, x) == HeldBy(t, x); }
  }

  /** The links look the same; repos and access lists may not. */
  ghost predicate SameLinks(s: State, t: State) {
    SameFlags(s, t) && SameImages(s, t) && SameEvents(s, t) && SameValues(s, t)
  }

  lemma SameLinksStayOk(s: State, t: State)
    requires SameLinks(s, t) && FlagsOk(s) && ImagesOk(s) && EventsOk(s) && ValuesOk(s)
    ensures FlagsOk(t) && ImagesOk(t) && EventsOk(t) && ValuesOk(t)
  {
    FlagsStayOk(s, t);
    ImagesStayOk(s, t);
    EventsStayOk(s, t);
    ValuesStayOk(s, t);
  }

  // ----- The part of a record that the links see -----

  function Shape(rec: Record): Record {
    match rec
    case ResourceRec(n, p, _, k) => ResourceRec(n, p, [], ShapeOfKind(k))
    case PartyRec(_, _, _, _, _) => PartyRec("", NO_ID, true, [], GroupKind([]))
    case _ => rec
  }

  function ShapeOfKind(k: ResourceKind): ResourceKind {
    match k
    case RealmKind(_, _, _) => RealmKind([], [], [])
    case RepoKind(_, images, configs, flags) => RepoKind([], images, configs, flags)
    case _ => k
  }

  /** The shape of a live object that is no entry. */
  function ShapeOf(s: State, x: Id): Option<Record> {
    if x in s && !s[x].EntryRec? then Some(Shape(s[x])) else None
  }

  ghost predicate SameShapes(s: State, t: State) {
    forall x {:trigger ShapeOf(t, x)} :: ShapeOf(t, x) == ShapeOf(s, x)
  }

  lemma ShapesKeepFlagsAndImages(s: State, t: State)
    requires SameShapes(s, t)
    ensures SameFlags(s, t) && SameImages(s, t)
  {
    forall x ensures IsFlag(t, x) <==> IsFlag(s, x) { assert ShapeOf(t, x) == ShapeOf(s, x); }
    forall x ensures IsImage(t, x) <==> IsImage(s, x) { assert ShapeOf(t, x) == ShapeOf(s, x); }
    forall x ensures IsScanConfig(t, x) <==> IsScanConfig(s, x) { assert ShapeOf(t, x) == ShapeOf(s, x); }
    forall x | IsFlag(t, x) || IsImage(t, x) || IsScanConfig(t, x) ensures t[x].resourceKind == s[x].resourceKind {
      assert ShapeOf(t, x) == ShapeOf(s, x);
    }
  }

  lemma ShapesKeepEventsAndValues(s: State, t: State)
    requires SameShapes(s, t)
    ensures SameEvents(s, t) && SameValues(s, t)
  {
    forall x ensures IsScanEvent(t, x) <==> IsScanEvent(s, x) { assert ShapeOf(t, x) == ShapeOf(s, x); }
    forall x ensures IsParameter(t, x) <==> IsParameter(s, x) { assert ShapeOf(t, x) == ShapeOf(s, x); }
    forall x ensures IsScanConfig(t, x) <==> IsScanConfig(s, x) { assert ShapeOf(t, x) == ShapeOf(s, x); }
    forall x | IsScanEvent(t, x) ensures t[x] == s[x] { assert ShapeOf(t, x) == ShapeOf(s, x); }
    forall x | IsScanConfig(t, x) ensures t[x].resourceKind == s[x].resourceKind { assert ShapeOf(t, x) == ShapeOf(s, x); }
  }

  lemma ShapesKeepRepos(s: State, t: State)
    requires SameShapes(s, t)
    ensures SameRepos(s, t)
  {
    forall x | IsResource(s, x)
      ensures && IsResource(t, x) && t[x].parentId == s[x].parentId && t[x].name == s[x].name && (IsRepo(s, x) ==> IsRepo(t, x))
              && (IsScanConfig(s, x) ==> IsScanConfig(t, x)) && (IsFlag(s, x) ==> IsFlag(t, x)) && (IsImage(s, x) ==> IsImage(t, x))
    {
      assert ShapeOf(t, x) == ShapeOf(s, x);
    }
    forall r | IsRepo(t, r) ensures IsRepo(s, r) && SameLists(s, t, r) { assert ShapeOf(t, r) == ShapeOf(s, r); }
  }

  lemma ShapesKeepLinks(s: State, t: State)
    requires SameShapes(s, t)
    ensures SameLinks(s, t) && SameRepos(s, t)
  {
    ShapesKeepFlagsAndImages(s, t);
    ShapesKeepEventsAndValues(s, t);
    ShapesKeepRepos(s, t);
  }

  // ----- Changes of one kind of link only -----

  /** Flags change; the other links, the repos, the values and the access lists look the same. */
  ghost predicate OnlyFlagsDiffer(s: State, t: State) {
    SameImages(s, t) && SameEvents(s, t) && SameValues(s, t) && Mild(s, t) && t.Keys == s.Keys
  }

  /** Images change, likewise. */
  ghost predicate OnlyImagesDiffer(s: State, t: State) {
    SameFlags(s, t) && SameEvents(s, t) && SameValues(s, t) && Mild(s, t) && t.Keys == s.Keys
  }

  lemma OnlyFlagsTwice(s: State, t: State, u: State)
    requires OnlyFlagsDiffer(s, t) && OnlyFlagsDiffer(t, u)
    ensures OnlyFlagsDiffer(s, u)
  {
    SameImagesTwice(s, t, u);
    SameEventsTwice(s, t, u);
    SameValuesTwice(s, t, u);
    MildTwice(s, t, u);
  }

  lemma OnlyImagesTwice(s: State, t: State, u: State)
    requires OnlyImagesDiffer(s, t) && OnlyImagesDiffer(t, u)
    ensures OnlyImagesDiffer(s, u)
  {
    SameFlagsTwice(s, t, u);
    SameEventsTwice(s, t, u);
    SameValuesTwice(s, t, u);
    MildTwice(s, t, u);
  }

  lemma WithFlagOnlyFlags(s: State, c: Id, f: Id)
    requires IsScanConfig(s, c)
    ensures OnlyFlagsDiffer(s, WithFlag(s, c, f))
  {
  }

  lemma WithUsedByOnlyFlags(s: State, f: Id, ids: seq<Id>)
    requires IsFlag(s, f)
    ensures OnlyFlagsDiffer(s, WithUsedBy(s, f, ids))
  {
  }

  lemma WithImagesOnlyImages(s: State, c: Id, ids: seq<Id>)
    requires IsScanConfig(s, c)
    ensures OnlyImagesDiffer(s, WithImages(s, c, ids))
  {
  }

  lemma WithConfigsOnlyImages(s: State, i: Id, ids: seq<Id>)
    requires IsImage(s, i)
    ensures OnlyImagesDiffer(s, WithConfigs(s, i, ids))
  {
  }

  lemma NothingDiffers(s: State)
    ensures OnlyFlagsDiffer(s, s) && OnlyImagesDiffer(s, s)
  {
  }

  lemma SetFlagIdOnlyFlags(s: State, c: Id, f: Id)
    requires IsScanConfig(s, c)
    ensures OnlyFlagsDiffer(s, SetFlagId(s, c, f).state)
  {
    var g := s[c].resourceKind.flagId;
    NothingDiffers(s);
    if g != f && IsFlag(s, f) && (g == NO_ID || IsFlag(s, g)) {
      var s1 := if g != NO_ID then RemoveRef(s, g, c) else s;
      if g != NO_ID { WithUsedByOnlyFlags(s, g, RemoveFrom(c, s[g].resourceKind.usedByScanConfigIds)); }
      var s2 := WithFlag(s1, c, f);
      WithFlagOnlyFlags(s1, c, f);
      OnlyFlagsTwice(s, s1, s2);
      WithUsedByOnlyFlags(s2, f, AddUniquely(c, s2[f].resourceKind.usedByScanConfigIds));
      OnlyFlagsTwice(s, s2, AddRef(s2, f, c));
    }
  }

  lemma AddDockerImageOnlyImages(s: State, c: Id, i: Id)
    requires IsScanConfig(s, c)
    ensures OnlyImagesDiffer(s, AddDockerImage(s, c, i).state)
    ensures AddDockerImage(s, c, i).ok <==> IsImage(s, i)
  {
    var ids := AddUniquely(i, s[c].resourceKind.dockerImageIdsThatUse);
    var s1 := WithImages(s, c, ids);
    WithImagesOnlyImages(s, c, ids);
    if IsImage(s1, i) {
      WithConfigsOnlyImages(s1, i, AddUniquely(c, s1[i].resourceKind.scanConfigsToUse));
      OnlyImagesTwice(s, s1, AddDockerImage(s, c, i).state);
    }
  }

  lemma RemDockerImageOnlyImages(s: State, c: Id, i: Id)
    requires IsScanConfig(s, c)
    ensures OnlyImagesDiffer(s, RemDockerImage(s, c, i).state)
  {
    var ids := RemoveFrom(i, s[c].resourceKind.dockerImageIdsThatUse);
    var s1 := WithImages(s, c, ids);
    WithImagesOnlyImages(s, c, ids);
    if IsImage(s1, i) {
      WithConfigsOnlyImages(s1, i, RemoveFrom(c, s1[i].resourceKind.scanConfigsToUse));
      OnlyImagesTwice(s, s1, RemDockerImage(s, c, i).state);
    }
  }

  lemma AddUniquelyFacts<T>(x: T, s: seq<T>)
    requires NoDup(s)
    ensures NoDup(AddUniquely(x, s))
    ensures forall y :: y in AddUniquely(x, s) <==> y in s || y == x
  {
    if x !in s { AppendNoDup(s, x); }
  }

  // ----- setFlagId -----

  lemma AddRefLists(s: State, f: Id, c: Id)
    requires FlagsListOnce(s) && IsFlag(s, f)
    ensures var t := AddRef(s, f, c);
      && FlagsListOnce(t)
      && (forall x, y {:trigger FlagLists(t, y, x)} :: FlagLists(t, y, x) <==> FlagLists(s, y, x) || (x == c && y == f))
      && (forall x, y {:trigger UsesFlag(t, x, y)} :: UsesFlag(t, x, y) <==> UsesFlag(s, x, y))
  {
    AddUniquelyFacts(c, s[f].resourceKind.usedByScanConfigIds);
    assert forall y {:trigger IsFlag(AddRef(s, f, c), y)} :: IsFlag(AddRef(s, f, c), y) <==> IsFlag(s, y);
  }

  lemma RemoveRefLists(s: State, f: Id, c: Id)
    requires FlagsListOnce(s) && IsFlag(s, f)
    ensures var t := RemoveRef(s, f, c);
      && FlagsListOnce(t)
      && (forall x, y {:trigger FlagLists(t, y, x)} :: FlagLists(t, y, x) <==> FlagLists(s, y, x) && !(x == c && y == f))
      && (forall x, y {:trigger UsesFlag(t, x, y)} :: UsesFlag(t, x, y) <==> UsesFlag(s, x, y))
  {
    RemoveFromFacts(c, s[f].resourceKind.usedByScanConfigIds);
    assert forall y {:trigger IsFlag(RemoveRef(s, f, c), y)} :: IsFlag(RemoveRef(s, f, c), y) <==> IsFlag(s, y);
  }

  ghost predicate FlagsListOnce(s: State) {
    forall f {:trigger IsFlag(s, f)} :: IsFlag(s, f) ==> NoDup(s[f].resourceKind.usedByScanConfigIds)
  }

  /** Whose flag is which after setFlagId, on both sides. */
  lemma SetFlagIdPairs(s: State, c: Id, f: Id)
    requires FlagsOk(s) && NO_ID !in s && IsScanConfig(s, c) && f != NO_ID && SetFlagId(s, c, f).ok
    ensures var t := SetFlagId(s, c, f).state;
      && FlagsListOnce(t)
      && (forall x, y {:trigger UsesFlag(t, x, y)} :: UsesFlag(t, x, y) <==> if x == c then y == f else UsesFlag(s, x, y))
      && (forall x, y {:trigger FlagLists(t, y, x)} :: FlagLists(t, y, x) <==> if x == c then y == f else FlagLists(s, y, x))
  {
    var g := s[c].resourceKind.flagId;
    if g != f {
      var s1 := if g != NO_ID then RemoveRef(s, g, c) else s;
      if g != NO_ID { RemoveRefLists(s, g, c); }
      var s2 := WithFlag(s1, c, f);
      assert forall x, y {:trigger FlagLists(s2, y, x)} :: FlagLists(s2, y, x) <==> FlagLists(s1, y, x);
      assert forall x, y {:trigger UsesFlag(s2, x, y)} :: UsesFlag(s2, x, y) <==> if x == c then y == f else UsesFlag(s1, x, y);
      assert forall y {:trigger IsFlag(s2, y)} :: IsFlag(s2, y) <==> IsFlag(s1, y);
      AddRefLists(s2, f, c);
    } else {
      assert UsesFlag(s, c, f) && FlagLists(s, f, c);
    }
  }

  lemma SetFlagIdFlags(s: State, c: Id, f: Id)
    requires FlagsOk(s) && NO_ID !in s && IsScanConfig(s, c) && SetFlagId(s, c, f).ok
    ensures FlagsOk(SetFlagId(s, c, f).state)
  {
    var t := SetFlagId(s, c, f).state;
    if f != NO_ID {
      SetFlagIdPairs(s, c, f);
      forall x, y | UsesFlag(t, x, y) ensures FlagLists(t, y, x) { var used, listed := UsesFlag(s, x, y), FlagLists(s, y, x); }
      forall x, y | FlagLists(t, y, x) ensures UsesFlag(t, x, y) { var used, listed := UsesFlag(s, x, y), FlagLists(s, y, x); }
    }
  }

  /**
  setFlagId succeeds exactly when the config has the new flag already, or the new flag is live and the old one is none or
  live; otherwise it changes nothing. Afterwards the config uses the new flag and no other, the new flag lists the
  config and no other flag does, and every other config has the flag that it had. Nothing but flags changes.
  */
  lemma SetFlagIdMeans(s: State, c: Id, f: Id)
    requires LinksOk(s) && IsScanConfig(s, c)
    ensures var o := SetFlagId(s, c, f); var g := s[c].resourceKind.flagId;
      && (o.ok <==> g == f || (IsFlag(s, f) && (g == NO_ID || IsFlag(s, g))))
      && (!o.ok || g == f ==> o.state == s) && LinksOk(o.state)
      && (o.ok && f != NO_ID ==> FlagIsNow(s, o.state, c, f)) && OnlyFlagsDiffer(s, o.state)
  {
    var o := SetFlagId(s, c, f);
    SetFlagIdOnlyFlags(s, c, f);
    if o.ok {
      if f != NO_ID { SetFlagIdPairs(s, c, f); }
      SetFlagIdFlags(s, c, f);
      ImagesStayOk(s, o.state);
      EventsStayOk(s, o.state);
      ReposStayOk(s, o.state);
      ValuesStayOk(s, o.state);
    }
  }

  /** The config uses this flag, on both sides, and all other configs use what they used. */
  ghost predicate FlagIsNow(s: State, t: State, c: Id, f: Id) {
    && (forall x, y {:trigger UsesFlag(t, x, y)} :: UsesFlag(t, x, y) <==> if x == c then y == f else UsesFlag(s, x, y))
    && (forall x, y {:trigger FlagLists(t, y, x)} :: FlagLists(t, y, x) <==> if x == c then y == f else FlagLists(s, y, x))
  }

  // ----- addDockerImage and remDockerImage -----

  lemma AddDockerImagePairs(s: State, c: Id, i: Id)
    requires ImagesOk(s) && IsScanConfig(s, c) && IsImage(s, i)
    ensures var t := AddDockerImage(s, c, i).state;
      && (forall x, y {:trigger UsesImage(t, x, y)} :: UsesImage(t, x, y) <==> UsesImage(s, x, y) || (x == c && y == i))
      && (forall x, y {:trigger ImageLists(t, y, x)} :: ImageLists(t, y, x) <==> ImageLists(s, y, x) || (x == c && y == i))
  {
    AddUniquelyFacts(i, s[c].resourceKind.dockerImageIdsThatUse);
    AddUniquelyFacts(c, s[i].resourceKind.scanConfigsToUse);
  }

  /** Both lists after the call, whether it succeeds or fails. */
  lemma AddDockerImageBoth(s: State, c: Id, i: Id)
    requires ImagesOk(s) && IsScanConfig(s, c)
    ensures var o := AddDockerImage(s, c, i); var t := o.state;
      && (forall x, y {:trigger UsesImage(t, x, y)} :: UsesImage(t, x, y) <==> UsesImage(s, x, y) || (x == c && y == i))
      && (forall x, y {:trigger ImageLists(t, y, x)} ::
            ImageLists(t, y, x) <==> ImageLists(s, y, x) || (o.ok && x == c && y == i))
  {
    if IsImage(s, i) { AddDockerImagePairs(s, c, i); } else { AddUniquelyFacts(i, s[c].resourceKind.dockerImageIdsThatUse); }
  }

  lemma AddDockerImageOnce(s: State, c: Id, i: Id)
    requires ImagesOk(s) && IsScanConfig(s, c) && IsImage(s, i)
    ensures var t := AddDockerImage(s, c, i).state;
      && (forall x {:trigger IsScanConfig(t, x)} :: IsScanConfig(t, x) ==> NoDup(t[x].resourceKind.dockerImageIdsThatUse))
      && (forall x {:trigger IsImage(t, x)} :: IsImage(t, x) ==> NoDup(t[x].resourceKind.scanConfigsToUse))
  {
    var t := AddDockerImage(s, c, i).state;
    AddUniquelyFacts(i, s[c].resourceKind.dockerImageIdsThatUse);
    AddUniquelyFacts(c, s[i].resourceKind.scanConfigsToUse);
    forall x | IsScanConfig(t, x) ensures NoDup(t[x].resourceKind.dockerImageIdsThatUse) { assert IsScanConfig(s, x); }
    forall x | IsImage(t, x) ensures NoDup(t[x].resourceKind.scanConfigsToUse) { assert IsImage(s, x); }
  }

  lemma AddDockerImageImages(s: State, c: Id, i: Id)
    requires ImagesOk(s) && IsScanConfig(s, c)
    ensures ImagesOk(AddDockerImage(s, c, i).state) <==> IsImage(s, i)
  {
    var t := AddDockerImage(s, c, i).state;
    if IsImage(s, i) {
      AddDockerImagePairs(s, c, i);
      AddDockerImageOnce(s, c, i);
      forall x, y | UsesImage(t, x, y) ensures ImageLists(t, y, x) { var used := UsesImage(s, x, y); }
      forall x, y | ImageLists(t, y, x) ensures UsesImage(t, x, y) { var listed := ImageLists(s, y, x); }
    } else {
      AddUniquelyFacts(i, s[c].resourceKind.dockerImageIdsThatUse);
      assert UsesImage(t, c, i) && !ImageLists(t, i, c);
    }
  }

  /**
  addDockerImage keeps the links exactly when the image is live: otherwise the config keeps an id of nothing. With a live
  image both lists have the pair. All other pairs, and everything else, are as they were.
  */
  lemma AddDockerImageIff(s: State, c: Id, i: Id)
    requires LinksOk(s) && IsScanConfig(s, c)
    ensures var o := AddDockerImage(s, c, i); var t := o.state;
      && (o.ok <==> IsImage(s, i)) && (LinksOk(t) <==> IsImage(s, i)) && OnlyImagesDiffer(s, t)
      && (forall x, y {:trigger UsesImage(t, x, y)} :: UsesImage(t, x, y) <==> UsesImage(s, x, y) || (x == c && y == i))
      && (forall x, y {:trigger ImageLists(t, y, x)} ::
            ImageLists(t, y, x) <==> ImageLists(s, y, x) || (o.ok && x == c && y == i))
  {
    AddDockerImageBoth(s, c, i);
    var t := AddDockerImage(s, c, i).state;
    AddDockerImageImages(s, c, i);
    AddDockerImageOnlyImages(s, c, i);
    FlagsStayOk(s, t);
    EventsStayOk(s, t);
    ReposStayOk(s, t);
    ValuesStayOk(s, t);
  }

  /** remDockerImage takes the pair out of both lists. */
  lemma RemDockerImagePairs(s: State, c: Id, i: Id)
    requires ImagesOk(s) && IsScanConfig(s, c) && IsImage(s, i)
    ensures RemDockerImage(s, c, i).ok
    ensures var t := RemDockerImage(s, c, i).state;
      && (forall x, y {:trigger UsesImage(t, x, y)} :: UsesImage(t, x, y) <==> UsesImage(s, x, y) && !(x == c && y == i))
      && (forall x, y {:trigger ImageLists(t, y, x)} :: ImageLists(t, y, x) <==> ImageLists(s, y, x) && !(x == c && y == i))
  {
    RemoveFromFacts(i, s[c].resourceKind.dockerImageIdsThatUse);
    RemoveFromFacts(c, s[i].resourceKind.scanConfigsToUse);
  }

  lemma RemDockerImageImages(s: State, c: Id, i: Id)
    requires ImagesOk(s) && IsScanConfig(s, c) && IsImage(s, i)
    ensures RemDockerImage(s, c, i).ok && ImagesOk(RemDockerImage(s, c, i).state)
  {
    var t := RemDockerImage(s, c, i).state;
    RemDockerImagePairs(s, c, i);
    RemoveFromFacts(i, s[c].resourceKind.dockerImageIdsThatUse);
    RemoveFromFacts(c, s[i].resourceKind.scanConfigsToUse);
    forall x, y | UsesImage(t, x, y) ensures ImageLists(t, y, x) { assert UsesImage(s, x, y); }
    forall x, y | ImageLists(t, y, x) ensures UsesImage(t, x, y) { assert ImageLists(s, y, x); }
    forall x | IsScanConfig(t, x) ensures NoDup(t[x].resourceKind.dockerImageIdsThatUse) { assert IsScanConfig(s, x); }
    forall x | IsImage(t, x) ensures NoDup(t[x].resourceKind.scanConfigsToUse) { assert IsImage(s, x); }
  }

  /** remDockerImage of a live image succeeds and takes exactly that pair out, on both sides; nothing else changes. */
  lemma RemDockerImageKeeps(s: State, c: Id, i: Id)
    requires LinksOk(s) && IsScanConfig(s, c) && IsImage(s, i)
    ensures RemDockerImage(s, c, i).ok && LinksOk(RemDockerImage(s, c, i).state)
    ensures var t := RemDockerImage(s, c, i).state;
      && OnlyImagesDiffer(s, t)
      && (forall x, y {:trigger UsesImage(t, x, y)} :: UsesImage(t, x, y) <==> UsesImage(s, x, y) && !(x == c && y == i))
      && (forall x, y {:trigger ImageLists(t, y, x)} :: ImageLists(t, y, x) <==> ImageLists(s, y, x) && !(x == c && y == i))
  {
    var t := RemDockerImage(s, c, i).state;
    RemDockerImagePairs(s, c, i);
    RemDockerImageImages(s, c, i);
    RemDockerImageOnlyImages(s, c, i);
    FlagsStayOk(s, t);
    EventsStayOk(s, t);
    ReposStayOk(s, t);
    ValuesStayOk(s, t);
  }
}
