/** Deleting flags, images and events: what the deletions refuse, and what they leave behind. */
module ScanRemoval {
  import opened Basics
  import opened ObjectStore
  import opened Access
  import opened AccessProofs
  import opened ScanLinks
  import opened ScanLinkProofs
  import opened ScanDeletion

  /** A resource that is no scan config, and that no config names, can be deleted. */
  lemma DeleteUnusedLinks(t: State, x: Id)
    requires FlagsOk(t) && ImagesOk(t) && EventsOk(t) && ValuesOk(t) && IsResource(t, x) && !IsScanConfig(t, x)
    requires forall c :: !UsesFlag(t, c, x) && !UsesImage(t, c, x)
    ensures FlagsOk(t - {x}) && ImagesOk(t - {x}) && EventsOk(t - {x}) && ValuesOk(t - {x})
  {
    var u := t - {x};
    forall y ensures IsFlag(u, y) <==> IsFlag(t, y) && y != x { }
    forall y ensures IsImage(u, y) <==> IsImage(t, y) && y != x { }
    forall y ensures IsScanConfig(u, y) <==> IsScanConfig(t, y) { }
    DeleteUnusedFlags(t, x);
    DeleteUnusedImages(t, x);
    forall e ensures IsScanEvent(u, e) <==> IsScanEvent(t, e) { }
    EventsStayOk(t, u);
    ValuesStayOk(t, u);
  }

  lemma DeleteUnusedFlags(t: State, x: Id)
    requires FlagsOk(t) && IsResource(t, x) && !IsScanConfig(t, x) && forall c :: !UsesFlag(t, c, x)
    ensures FlagsOk(t - {x})
  {
    var u := t - {x};
    forall c, f | UsesFlag(u, c, f) ensures FlagLists(u, f, c) { assert UsesFlag(t, c, f) && FlagLists(t, f, c); }
    forall c, f | FlagLists(u, f, c) ensures UsesFlag(u, c, f) { assert FlagLists(t, f, c) && UsesFlag(t, c, f); }
    forall f | IsFlag(u, f) ensures NoDup(u[f].resourceKind.usedByScanConfigIds) { assert IsFlag(t, f); }
  }

  lemma DeleteUnusedImages(t: State, x: Id)
    requires ImagesOk(t) && IsResource(t, x) && !IsScanConfig(t, x) && forall c :: !UsesImage(t, c, x)
    ensures ImagesOk(t - {x})
  {
    var u := t - {x};
    forall c, i | UsesImage(u, c, i) ensures ImageLists(u, i, c) { assert UsesImage(t, c, i) && ImageLists(t, i, c); }
    forall c, i | ImageLists(u, i, c) ensures UsesImage(u, c, i) { assert ImageLists(t, i, c) && UsesImage(t, c, i); }
    forall i | IsImage(u, i) ensures NoDup(u[i].resourceKind.scanConfigsToUse) { assert IsImage(t, i); }
    forall c | IsScanConfig(u, c) ensures NoDup(u[c].resourceKind.dockerImageIdsThatUse) { assert IsScanConfig(t, c); }
  }

  /** Deleting a resource that only its repo's list and its access list named. */
  lemma DeleteUnused(s: State, t: State, x: Id)
    requires ReposOk(s) && ReposWithout(s, t, x) && NO_ID !in t
    requires FlagsOk(t) && ImagesOk(t) && EventsOk(t) && ValuesOk(t) && Consistent(t)
    requires IsResource(t, x) && !IsScanConfig(t, x)
    requires Unused(t, x) && t[x].acl == []
    ensures LinksOk(t - {x}) && Consistent(t - {x}) && MatrixOf(t - {x}) == MatrixOf(t) && Unnamed(t - {x}, x)
  {
    var u := t - {x};
    DeleteUnusedLinks(t, x);
    DeleteBareResource(t, x);
    DeletedRepos(s, t, x);
    forall c ensures !UsesFlag(u, c, x) { var used := UsesFlag(t, c, x); }
    forall c ensures !UsesImage(u, c, x) { var used := UsesImage(t, c, x); }
    forall f ensures !FlagLists(u, f, x) && !ImageLists(u, f, x) {
      var listed, used := FlagLists(u, f, x), UsesFlag(u, x, f);
      var listed', used' := ImageLists(u, f, x), UsesImage(u, x, f);
    }
    forall e ensures !EventNames(u, e, x) { var named, listed := EventNames(u, e, x), ConfigListsEvent(u, x, e); }
    forall e | IsEntry(u, e) ensures u[e].resourceId != x { }
    forall y, e | InAcl(u, y, e) ensures IsEntry(u, e) && u[e].resourceId != x { }
  }

  /** A flag or image goes that no config uses any more: other uses, events and values stay. */
  lemma UnusedGone(s: State, t: State, x: Id)
    requires OtherUsesOf(s, t, x) && SameEvents(s, t) && SameValues(s, t) && EventsOk(s)
    requires IsResource(t, x) && !IsScanConfig(t, x) && !IsScanEvent(s, x)
    ensures OtherUses(s, t - {x}, x) && OtherEvents(s, t - {x}, x)
  {
    var u := t - {x};
    forall c, f ensures UsesFlag(u, c, f) <==> UsesFlag(s, c, f) && c != x && f != x {
      assert UsesFlag(t, c, f) <==> UsesFlag(s, c, f) && f != x;
    }
    forall c, i ensures UsesImage(u, c, i) <==> UsesImage(s, c, i) && c != x && i != x {
      assert UsesImage(t, c, i) <==> UsesImage(s, c, i) && i != x;
    }
    UnusedGoneEvents(s, t, x);
  }

  lemma UnusedGoneEvents(s: State, t: State, x: Id)
    requires SameEvents(s, t) && SameValues(s, t) && EventsOk(s)
    requires IsResource(t, x) && !IsScanConfig(t, x) && !IsScanEvent(s, x)
    ensures OtherEvents(s, t - {x}, x)
  {
    var u := t - {x};
    assert !IsScanConfig(s, x);
    forall c, e ensures EventNames(u, e, c) <==> EventNames(s, e, c) && c != x && e != x {
      assert IsScanEvent(t, e) <==> IsScanEvent(s, e);
      assert EventNames(s, e, c) ==> ConfigListsEvent(s, c, e);
    }
    forall y ensures HeldBy(u, y) == if y == x then [] else HeldBy(s, y) {
      assert HeldBy(t, y) == HeldBy(s, y) && (y != x ==> HeldBy(u, y) == HeldBy(t, y));
    }
  }

  /** No config uses `x` any more, and all other uses are as they were. */
  ghost predicate OtherUsesOf(s: State, t: State, x: Id) {
    && (forall c, f {:trigger UsesFlag(t, c, f)} :: UsesFlag(t, c, f) <==> UsesFlag(s, c, f) && f != x)
    && (forall c, i {:trigger UsesImage(t, c, i)} :: UsesImage(t, c, i) <==> UsesImage(s, c, i) && i != x)
  }

  lemma SameUsesOf(s: State, t: State, u: State, x: Id)
    requires OtherUsesOf(s, t, x) && SameLinks(t, u)
    ensures OtherUsesOf(s, u, x)
  {
    forall c, f ensures UsesFlag(u, c, f) <==> UsesFlag(s, c, f) && f != x {
      assert UsesFlag(t, c, f) <==> UsesFlag(s, c, f) && f != x;
      assert IsScanConfig(u, c) <==> IsScanConfig(t, c);
    }
    forall c, i ensures UsesImage(u, c, i) <==> UsesImage(s, c, i) && i != x {
      assert UsesImage(t, c, i) <==> UsesImage(s, c, i) && i != x;
      assert IsScanConfig(u, c) <==> IsScanConfig(t, c);
    }
  }

  // ----- deleteFlag -----

  /** Some config names the flag. */
  ghost predicate FlagInUse(s: State, f: Id) { exists c :: UsesFlag(s, c, f) }

  lemma FlagInUseIff(s: State, f: Id)
    requires FlagsOk(s) && IsFlag(s, f)
    ensures FlagInUse(s, f) <==> s[f].resourceKind.usedByScanConfigIds != []
  {
    var users := s[f].resourceKind.usedByScanConfigIds;
    if users != [] {
      assert FlagLists(s, f, users[0]);
      assert UsesFlag(s, users[0], f);
    } else {
      forall c ensures !UsesFlag(s, c, f) { var listed := FlagLists(s, f, c); }
    }
  }

  /** The repo no longer lists the flag. */
  function DropFlagFromRepo(s: State, repoId: Id, f: Id): State
    requires IsRepo(s, repoId)
  {
    var k := s[repoId].resourceKind;
    WithRepoKind(s, repoId, k.(flagIds := RemoveFrom(f, k.flagIds)))
  }

  lemma DropFlagFromRepoMeans(s: State, repoId: Id, f: Id)
    requires ReposOk(s) && IsRepo(s, repoId) && IsFlag(s, f) && s[f].parentId == repoId
    ensures var t := DropFlagFromRepo(s, repoId, f);
      SameLinks(s, t) && SameAccess(s, t) && ReposWithout(s, t, f) && t.Keys == s.Keys
  {
    var k := s[repoId].resourceKind;
    var k' := k.(flagIds := RemoveFrom(f, k.flagIds));
    RemoveFromFacts(f, k.flagIds);
    var listed := RepoLists(s, repoId, f);
    RepoDrops(s, repoId, f, k');
    WithRepoKindSame(s, repoId, k');
  }

  /** The end of deleteFlag: the repo's list, the access list and the object. */
  lemma DropFlagRest(s: State, repoId: Id, f: Id)
    requires ReposOk(s) && Consistent(s) && IsRepo(s, repoId) && IsFlag(s, f) && s[f].parentId == repoId
    ensures var t := DropFlagFromRepo(s, repoId, f); var u := Cleared(t, {f});
      && DeleteAllAccess(t, f) == Outcome(u, true)
      && Consistent(u) && Consistent(u - {f}) && LosesOnly(s, u - {f}, f)
      && ReposWithout(s, u, f) && SameLinks(t, u) && IsFlag(u, f) && u[f].acl == []
  {
    var t := DropFlagFromRepo(s, repoId, f);
    DropFlagFromRepoMeans(s, repoId, f);
    SameAccessConsistent(s, t);
    ClearAndDelete(t, f);
    ClearedBare(t, f);
    ClearedSame(t, f);
    ClearedLosesOnly(t, f);
    ReposWithoutSame(s, t, Cleared(t, {f}), f);
  }

  /** Whatever the other links are like, deleteFlag keeps repos and access lists in step. */
  lemma DeleteFlagSafe(s: State, repoId: Id, f: Id, fileRemoved: bool)
    requires ReposOk(s) && Consistent(s) && IsRepo(s, repoId) && IsFlag(s, f) && s[f].parentId == repoId
    ensures var o := DeleteFlag(s, repoId, f, fileRemoved);
      && ReposOk(o.state) && Consistent(o.state)
      && (o.ok <==> s[f].resourceKind.usedByScanConfigIds == [] && fileRemoved) && (!o.ok ==> o.state == s)
      && (o.ok ==> o.state == Cleared(DropFlagFromRepo(s, repoId, f), {f}) - {f} && LosesOnly(s, o.state, f))
  {
    if s[f].resourceKind.usedByScanConfigIds == [] && fileRemoved {
      DropFlagRest(s, repoId, f);
      DeletedRepos(s, Cleared(DropFlagFromRepo(s, repoId, f), {f}), f);
    }
  }

  /**
  repo.deleteFlag, called for the flag's own repo, deletes the flag exactly when no config uses it and its file could
  be removed; then nothing names the flag, and all other resources, lists, links and permissions stay. Otherwise nothing
  changes, so no config is left with a dead flag.
  */
  lemma DeleteFlagMeans(s: State, repoId: Id, f: Id, fileRemoved: bool)
    requires LinksOk(s) && Consistent(s) && IsRepo(s, repoId) && IsFlag(s, f) && s[f].parentId == repoId
    ensures var o := DeleteFlag(s, repoId, f, fileRemoved);
      && (o.ok <==> !FlagInUse(s, f) && fileRemoved)
      && (!o.ok ==> o.state == s)
      && LinksOk(o.state) && Consistent(o.state)
      && (o.ok ==> Unnamed(o.state, f) && LosesOnly(s, o.state, f) && OthersStay(s, o.state, f))
  {
    FlagInUseIff(s, f);
    DeleteFlagSafe(s, repoId, f, fileRemoved);
    if !FlagInUse(s, f) && fileRemoved {
      var t := DropFlagFromRepo(s, repoId, f);
      var u := Cleared(t, {f});
      DropFlagFromRepoMeans(s, repoId, f);
      DropFlagRest(s, repoId, f);
      SameLinksStayOk(s, t);
      SameLinksStayOk(t, u);
      ClearedBare(t, f);
      NotUsed(s, f);
      NotUsedSame(s, t, f);
      NotUsedSame(t, u, f);
      DeleteUnused(s, u, f);
      FlagGone(s, t, u, f);
    }
  }

  lemma FlagGone(s: State, t: State, u: State, f: Id)
    requires EventsOk(s) && IsFlag(s, f) && Unused(s, f)
    requires SameLinks(s, t) && SameLinks(t, u) && ReposWithout(s, u, f) && IsFlag(u, f)
    ensures OthersStay(s, u - {f}, f)
  {
    GoneFromRepos(s, u, f);
    SameEventsTwice(s, t, u);
    SameValuesTwice(s, t, u);
    NobodyUses(s, f);
    SameUsesOf(s, s, t, f);
    SameUsesOf(s, t, u, f);
    UnusedGone(s, u, f);
  }

  lemma NobodyUses(s: State, x: Id)
    requires Unused(s, x)
    ensures OtherUsesOf(s, s, x)
  {
    forall c, y ensures (UsesFlag(s, c, y) ==> y != x) && (UsesImage(s, c, y) ==> y != x) {
      assert !UsesFlag(s, c, x) && !UsesImage(s, c, x);
    }
  }

  /** No config names the flag or image. */
  ghost predicate Unused(s: State, x: Id) { forall c :: !UsesFlag(s, c, x) && !UsesImage(s, c, x) }

  lemma NotUsed(s: State, f: Id)
    requires ImagesOk(s) && IsFlag(s, f) && !FlagInUse(s, f)
    ensures Unused(s, f)
  {
    forall c ensures !UsesFlag(s, c, f) && !UsesImage(s, c, f) { var used, listed := UsesImage(s, c, f), ImageLists(s, f, c); }
  }

  lemma NotUsedSame(s: State, t: State, x: Id)
    requires Unused(s, x) && SameLinks(s, t)
    ensures Unused(t, x)
  {
    forall c ensures !UsesFlag(t, c, x) && !UsesImage(t, c, x) {
      assert IsScanConfig(t, c) <==> IsScanConfig(s, c);
      assert !UsesFlag(s, c, x) && !UsesImage(s, c, x);
    }
  }

  // ----- deleteDockerImage -----

  lemma {:induction false} UnlinkConfigsMeans(s: State, i: Id, configs: seq<Id>)
    requires ImagesOk(s) && IsImage(s, i) && forall c :: c in configs ==> IsScanConfig(s, c)
    ensures var o := UnlinkConfigs(s, i, configs);
      && o.ok && ImagesOk(o.state)
      && (forall x, y {:trigger UsesImage(o.state, x, y)} ::
            UsesImage(o.state, x, y) <==> UsesImage(s, x, y) && !(y == i && x in configs))
  {
    if configs != [] {
      var c := configs[0];
      assert IsScanConfig(s, c);
      RemDockerImageImages(s, c, i);
      RemDockerImagePairs(s, c, i);
      var s1 := RemDockerImage(s, c, i).state;
      assert forall x :: x in configs <==> x == c || x in configs[1..];
      assert forall x {:trigger IsScanConfig(s1, x)} :: IsScanConfig(s1, x) <==> IsScanConfig(s, x);
      assert IsImage(s1, i);
      UnlinkConfigsMeans(s1, i, configs[1..]);
    }
  }

  /** Whether it succeeds or not, the loop changes images only. */
  lemma {:induction false} UnlinkConfigsOnlyImages(s: State, i: Id, configs: seq<Id>)
    ensures OnlyImagesDiffer(s, UnlinkConfigs(s, i, configs).state)
    decreases |configs|
  {
    NothingDiffers(s);
    if configs != [] && IsScanConfig(s, configs[0]) {
      var o := RemDockerImage(s, configs[0], i);
      RemDockerImageOnlyImages(s, configs[0], i);
      if o.ok {
        UnlinkConfigsOnlyImages(o.state, i, configs[1..]);
        OnlyImagesTwice(s, o.state, UnlinkConfigs(o.state, i, configs[1..]).state);
      }
    }
  }

  /** The part of deleteDockerImage up to the repo's list: no config names the image any more. */
  lemma UnlinkConfigsAll(s: State, i: Id)
    requires ImagesOk(s) && IsImage(s, i)
    ensures var o := UnlinkConfigs(s, i, s[i].resourceKind.scanConfigsToUse);
      && o.ok && ImagesOk(o.state)
      && (forall c, y {:trigger UsesImage(o.state, c, y)} :: UsesImage(o.state, c, y) <==> UsesImage(s, c, y) && y != i)
  {
    var configs := s[i].resourceKind.scanConfigsToUse;
    forall c | c in configs ensures IsScanConfig(s, c) { assert ImageLists(s, i, c) && UsesImage(s, c, i); }
    UnlinkConfigsMeans(s, i, configs);
    var t := UnlinkConfigs(s, i, configs).state;
    forall c, y ensures UsesImage(t, c, y) <==> UsesImage(s, c, y) && y != i {
      var used, listed := UsesImage(s, c, i), ImageLists(s, i, c);
    }
  }

  /** After the loop no config uses the image, and nothing else about configs has changed. */
  lemma UnlinkedImage(s: State, i: Id)
    requires FlagsOk(s) && ImagesOk(s) && IsImage(s, i)
    ensures var t := UnlinkConfigs(s, i, s[i].resourceKind.scanConfigsToUse).state;
      OtherUsesOf(s, t, i) && SameEvents(s, t) && SameValues(s, t)
  {
    var configs := s[i].resourceKind.scanConfigsToUse;
    var t := UnlinkConfigs(s, i, configs).state;
    UnlinkConfigsAll(s, i);
    UnlinkConfigsOnlyImages(s, i, configs);
    forall c, f ensures UsesFlag(t, c, f) <==> UsesFlag(s, c, f) && f != i {
      assert IsScanConfig(t, c) <==> IsScanConfig(s, c);
      var used, listed := UsesFlag(s, c, i), FlagLists(s, i, c);
    }
  }

  lemma ImageGone(s: State, t: State, repoId: Id, i: Id)
    requires ReposOk(t) && SameRepos(s, t) && IsImage(s, i) && EventsOk(s) && !IsRepo(t, i)
    requires OtherUsesOf(s, t, i) && SameEvents(s, t) && SameValues(s, t)
    requires IsRepo(t, repoId) && IsImage(t, i) && t[i].parentId == repoId
    ensures OthersStay(s, DropImageFromRepo(t, repoId, i) - {i}, i)
  {
    var u := DropImageFromRepo(t, repoId, i);
    DropImageList(t, repoId, i);
    ReposSameWithout(s, t, u, i);
    GoneFromRepos(s, u, i);
    SameUsesOf(s, t, u, i);
    SameEventsTwice(s, t, u);
    SameValuesTwice(s, t, u);
    UnusedGone(s, u, i);
  }

  /** All of deleteDockerImage behind the access list, seen from the others. */
  lemma ImageGoesOthersStay(s: State, repoId: Id, i: Id)
    requires LinksOk(s) && Consistent(s) && IsRepo(s, repoId) && IsImage(s, i) && s[i].parentId == repoId && s[i].acl == []
    ensures var t := UnlinkConfigs(s, i, s[i].resourceKind.scanConfigsToUse).state;
      IsRepo(t, repoId) && OthersStay(s, DropImageFromRepo(t, repoId, i) - {i}, i)
  {
    var t := UnlinkConfigs(s, i, s[i].resourceKind.scanConfigsToUse).state;
    AfterUnlinkConfigs(s, repoId, i, s[i].resourceKind.scanConfigsToUse);
    UnlinkedImage(s, i);
    ImageGone(s, t, repoId, i);
  }

  lemma DropImageList(s: State, repoId: Id, i: Id)
    requires ReposOk(s) && IsRepo(s, repoId) && IsImage(s, i) && s[i].parentId == repoId
    ensures var t := DropImageFromRepo(s, repoId, i);
      SameLinks(s, t) && SameAccess(s, t) && ReposWithout(s, t, i) && IsImage(t, i) && !IsRepo(t, i)
  {
    var k := s[repoId].resourceKind;
    var k' := k.(dockerImageIds := RemoveFrom(i, k.dockerImageIds));
    RemoveFromFacts(i, k.dockerImageIds);
    var listed := RepoLists(s, repoId, i);
    RepoDrops(s, repoId, i, k');
    WithRepoKindSame(s, repoId, k');
  }

  /** The repo no longer lists the image. */
  function DropImageFromRepo(s: State, repoId: Id, i: Id): State
    requires IsRepo(s, repoId)
  {
    var k := s[repoId].resourceKind;
    WithRepoKind(s, repoId, k.(dockerImageIds := RemoveFrom(i, k.dockerImageIds)))
  }

  /** The end of deleteDockerImage: the repo drops the image, and the image is deleted. */
  lemma DropImageRest(s: State, repoId: Id, i: Id)
    requires ReposOk(s) && Consistent(s) && IsRepo(s, repoId) && IsImage(s, i) && s[i].parentId == repoId && s[i].acl == []
    ensures var t := DropImageFromRepo(s, repoId, i);
      && SameLinks(s, t) && ReposWithout(s, t, i) && Consistent(t) && IsImage(t, i) && t[i].acl == []
      && t.Keys == s.Keys && MatrixOf(t) == MatrixOf(s)
      && ReposOk(t - {i}) && Consistent(t - {i}) && MatrixOf(t - {i}) == MatrixOf(s)
  {
    var t := DropImageFromRepo(s, repoId, i);
    DropImageList(s, repoId, i);
    SameAccessConsistent(s, t);
    DeletedRepos(s, t, i);
    DeleteBareResource(t, i);
  }

  lemma DropUnusedImage(s: State, repoId: Id, i: Id)
    requires LinksOk(s) && Consistent(s) && IsRepo(s, repoId) && IsImage(s, i) && s[i].parentId == repoId
    requires s[i].acl == [] && forall c :: !UsesImage(s, c, i)
    ensures var t := DropImageFromRepo(s, repoId, i) - {i};
      LinksOk(t) && Consistent(t) && MatrixOf(t) == MatrixOf(s) && Unnamed(t, i)
  {
    var t := DropImageFromRepo(s, repoId, i);
    DropImageRest(s, repoId, i);
    SameLinksStayOk(s, t);
    forall c ensures !UsesFlag(s, c, i) { var used, listed := UsesFlag(s, c, i), FlagLists(s, i, c); }
    NotUsedSame(s, t, i);
    DeleteUnused(s, t, i);
  }

  /** What the loop over the configs leaves of the image itself and of its repo. */
  lemma AfterUnlinkConfigs(s: State, repoId: Id, i: Id, configs: seq<Id>)
    requires ReposOk(s) && Consistent(s) && IsRepo(s, repoId) && IsImage(s, i) && s[i].acl == []
    ensures var t := UnlinkConfigs(s, i, configs).state;
      && OnlyImagesDiffer(s, t) && ReposOk(t) && Consistent(t) && MatrixOf(t) == MatrixOf(s)
      && IsRepo(t, repoId) && IsImage(t, i) && t[i].acl == [] && t[i].parentId == s[i].parentId
  {
    var t := UnlinkConfigs(s, i, configs).state;
    UnlinkConfigsOnlyImages(s, i, configs);
    MildOk(s, t);
    assert IsRepo(s, repoId) && IsResource(s, i);
    assert HasAcl(t, i);
  }

  /** deleteDockerImage from the point where the access list is cleared. */
  lemma UnlinkAndDropImage(s: State, repoId: Id, i: Id)
    requires LinksOk(s) && Consistent(s) && IsRepo(s, repoId) && IsImage(s, i) && s[i].parentId == repoId && s[i].acl == []
    ensures var o := UnlinkConfigs(s, i, s[i].resourceKind.scanConfigsToUse);
      && o.ok && IsRepo(o.state, repoId)
      && var t := DropImageFromRepo(o.state, repoId, i) - {i};
        LinksOk(t) && Consistent(t) && MatrixOf(t) == MatrixOf(s) && Unnamed(t, i)
  {
    UnlinkConfigsAll(s, i);
    var t := UnlinkConfigs(s, i, s[i].resourceKind.scanConfigsToUse).state;
    AfterUnlinkConfigs(s, repoId, i, s[i].resourceKind.scanConfigsToUse);
    FlagsStayOk(s, t);
    EventsStayOk(s, t);
    ValuesStayOk(s, t);
    DropUnusedImage(t, repoId, i);
  }

  /** Whatever the other links are like, deleteDockerImage keeps repos and access lists in step, even when it fails. */
  lemma DeleteDockerImageSafe(s: State, repoId: Id, i: Id, versionsDeleted: bool)
    requires ReposOk(s) && Consistent(s) && IsRepo(s, repoId) && IsImage(s, i) && s[i].parentId == repoId
    ensures var o := DeleteDockerImage(s, repoId, i, versionsDeleted); ReposOk(o.state) && Consistent(o.state)
  {
    if versionsDeleted {
      var s1 := Cleared(s, {i});
      ClearAndDelete(s, i);
      ClearedLosesOnly(s, i);
      ClearedSame(s, i);
      ReposStayOk(s, s1);
      ClearedOne(s, repoId, i);
      AfterUnlinkConfigs(s1, repoId, i, s[i].resourceKind.scanConfigsToUse);
      DropImageRest(UnlinkConfigs(s1, i, s[i].resourceKind.scanConfigsToUse).state, repoId, i);
    }
  }

  /**
  repo.deleteDockerImage succeeds exactly when the image's versions could be deleted, and then leaves nothing that names
  the image, while all other resources, lists, links and permissions stay; otherwise nothing changes.
  */
  lemma DeleteDockerImageMeans(s: State, repoId: Id, i: Id, versionsDeleted: bool)
    requires LinksOk(s) && Consistent(s) && IsRepo(s, repoId) && IsImage(s, i) && s[i].parentId == repoId
    ensures var o := DeleteDockerImage(s, repoId, i, versionsDeleted);
      && (o.ok <==> versionsDeleted) && (!o.ok ==> o.state == s)
      && LinksOk(o.state) && Consistent(o.state)
      && (o.ok ==> Unnamed(o.state, i) && LosesOnly(s, o.state, i) && OthersStay(s, o.state, i))
  {
    if versionsDeleted {
      var s1 := Cleared(s, {i});
      ClearAndDelete(s, i);
      ClearedLosesOnly(s, i);
      ClearedSame(s, i);
      SameLinksStayOk(s, s1);
      ReposStayOk(s, s1);
      ClearedOne(s, repoId, i);
      UnlinkAndDropImage(s1, repoId, i);
      ImageGoesOthersStay(s1, repoId, i);
      OthersStayFrom(s, s1, DeleteDockerImage(s, repoId, i, versionsDeleted).state, i);
    }
  }

  /** What looked the same before counts as staying. */
  lemma OthersStayFrom(s: State, t: State, u: State, x: Id)
    requires SameLinks(s, t) && SameRepos(s, t) && OthersStay(t, u, x)
    ensures OthersStay(s, u, x)
  {
    ResourcesStayFrom(s, t, u, x);
    UsesStayFrom(s, t, u, x);
    EventsStayFrom(s, t, u, x);
  }

  lemma ResourcesStayFrom(s: State, t: State, u: State, x: Id)
    requires SameRepos(s, t) && OtherResources(t, u, x)
    ensures OtherResources(s, u, x)
  {
    forall r, y ensures RepoLists(u, r, y) <==> RepoLists(s, r, y) && y != x {
      assert RepoLists(u, r, y) <==> RepoLists(t, r, y) && y != x;
      assert IsRepo(t, r) <==> IsRepo(s, r);
    }
  }

  lemma UsesStayFrom(s: State, t: State, u: State, x: Id)
    requires SameLinks(s, t) && OtherUses(t, u, x)
    ensures OtherUses(s, u, x)
  {
    forall c, y ensures UsesFlag(t, c, y) <==> UsesFlag(s, c, y) { assert IsScanConfig(t, c) <==> IsScanConfig(s, c); }
    forall c, y ensures UsesImage(t, c, y) <==> UsesImage(s, c, y) { assert IsScanConfig(t, c) <==> IsScanConfig(s, c); }
    forall c, y ensures UsesFlag(u, c, y) <==> UsesFlag(s, c, y) && c != x && y != x { var used := UsesFlag(t, c, y); }
    forall c, y ensures UsesImage(u, c, y) <==> UsesImage(s, c, y) && c != x && y != x { var used := UsesImage(t, c, y); }
  }

  lemma EventsStayFrom(s: State, t: State, u: State, x: Id)
    requires SameLinks(s, t) && OtherEvents(t, u, x)
    ensures OtherEvents(s, u, x)
  {
    forall c, e ensures EventNames(u, e, c) <==> EventNames(s, e, c) && c != x && e != x {
      assert EventNames(u, e, c) <==> EventNames(t, e, c) && c != x && e != x;
      assert IsScanEvent(t, e) <==> IsScanEvent(s, e);
    }
    forall y ensures HeldBy(u, y) == if y == x then [] else HeldBy(s, y) {
      assert HeldBy(u, y) == if y == x then [] else HeldBy(t, y);
      assert HeldBy(t, y) == HeldBy(s, y);
    }
  }

  lemma ClearedOne(s: State, r: Id, x: Id)
    requires IsResource(s, x) && IsRepo(s, r)
    ensures var t := Cleared(s, {x});
      && IsRepo(t, r) && IsResource(t, x) && t[x].acl == [] && t[x].parentId == s[x].parentId
      && t[x].resourceKind == s[x].resourceKind && (NO_ID !in s ==> NO_ID !in t)
  {
  }

  // ----- deleteEvent -----

  /** The event still names a live config, and each of its parameter values is live and stands in its list once. */
  ghost predicate EventDeletable(s: State, e: Id) {
    && IsScanEvent(s, e) && IsScanConfig(s, s[e].scanConfigId)
    && NoDup(s[e].valueIds) && forall v :: v in s[e].valueIds ==> IsParameter(s, v)
  }

  /** What is left when an event and its parameter values are gone. */
  function WithoutEvent(s: State, e: Id): State
    requires IsScanEvent(s, e) && IsScanConfig(s, s[e].scanConfigId)
  {
    DropEvent(s, e) - (set v | v in s[e].valueIds) - {e}
  }

  /** In any store, a scan event is deleted exactly when it is deletable in this sense, and then its values go with it. */
  lemma DeleteScanEventIff(s: State, e: Id)
    ensures DeleteScanEvent(s, e).ok <==> EventDeletable(s, e)
    ensures EventDeletable(s, e) ==> DeleteScanEvent(s, e).state == WithoutEvent(s, e)
  {
    if IsScanEvent(s, e) && IsScanConfig(s, s[e].scanConfigId) {
      var s1 := DropEvent(s, e);
      DeleteParametersIff(s1, s[e].valueIds);
      assert forall v :: IsParameter(s1, v) <==> IsParameter(s, v);
    }
  }

  /**
  In a store that is in step the values are never in the way: an event can be deleted exactly when it still names a
  config. Then the event and its parameter values are gone, the config does not list it, all links stay in step, and all
  other resources, lists, links and values are as they were.
  */
  lemma DeleteScanEventMeans(s: State, e: Id)
    requires LinksOk(s) && Consistent(s)
    ensures var o := DeleteScanEvent(s, e);
      && (o.ok <==> IsScanEvent(s, e) && s[e].scanConfigId != NO_ID) && (!o.ok ==> o.state == s)
      && LinksOk(o.state) && Consistent(o.state) && MatrixOf(o.state) == MatrixOf(s)
      && (o.ok ==> e !in o.state && forall c :: !ConfigListsEvent(o.state, c, e))
      && (o.ok ==> OthersStay(s, o.state, e) && forall v :: v in s[e].valueIds ==> v !in o.state)
  {
    DeleteScanEventIff(s, e);
    if IsScanEvent(s, e) && s[e].scanConfigId != NO_ID {
      var c := s[e].scanConfigId;
      assert EventNames(s, e, c) && ConfigListsEvent(s, c, e);
      forall v | v in s[e].valueIds ensures IsParameter(s, v) { assert Holds(s, e, v); }
      assert NoDup(HeldBy(s, e));
      var t := WithoutEvent(s, e);
      DeleteEventFrames(s, e);
      FlagsStayOk(s, t);
      ImagesStayOk(s, t);
      MildOk(s, t);
      DeleteEventEvents(s, e);
      ReleaseEvent(s, e);
      ValuesReleasedOk(s, t, e);
      EventGoneOthersStay(s, t, e);
    }
  }

  lemma EventGoneOthersStay(s: State, t: State, e: Id)
    requires ReposOk(s) && FlagsOk(s) && ImagesOk(s) && OnlyEventsDiffer(s, t) && ValuesReleased(s, t, e) && IsScanEvent(s, e)
    requires EventsOk(s) && forall c, y {:trigger EventNames(t, y, c)} :: EventNames(t, y, c) <==> EventNames(s, y, c) && y != e
    ensures OthersStay(s, t, e)
  {
    forall r, y ensures RepoLists(t, r, y) <==> RepoLists(s, r, y) && y != e {
      assert IsRepo(t, r) <==> IsRepo(s, r);
      var listed := RepoLists(s, r, y);
    }
    forall c, y ensures UsesFlag(t, c, y) <==> UsesFlag(s, c, y) && c != e && y != e {
      assert IsScanConfig(t, c) <==> IsScanConfig(s, c);
      assert UsesFlag(s, c, y) ==> FlagLists(s, y, c);
    }
    forall c, y ensures UsesImage(t, c, y) <==> UsesImage(s, c, y) && c != e && y != e {
      assert IsScanConfig(t, c) <==> IsScanConfig(s, c);
      assert UsesImage(s, c, y) ==> ImageLists(s, y, c);
    }
    forall c, y ensures EventNames(t, y, c) <==> EventNames(s, y, c) && c != e && y != e {
      assert EventNames(s, y, c) ==> ConfigListsEvent(s, c, y);
    }
  }

  /** Everything but the events and the parameter values looks the same. */
  ghost predicate OnlyEventsDiffer(s: State, t: State) {
    SameFlags(s, t) && SameImages(s, t) && Mild(s, t)
  }

  lemma OnlyEventsTwice(s: State, t: State, u: State)
    requires OnlyEventsDiffer(s, t) && OnlyEventsDiffer(t, u)
    ensures OnlyEventsDiffer(s, u)
  {
    SameFlagsTwice(s, t, u);
    SameImagesTwice(s, t, u);
    MildTwice(s, t, u);
  }

  lemma DropEventFrames(s: State, e: Id)
    requires IsScanEvent(s, e) && IsScanConfig(s, s[e].scanConfigId)
    ensures OnlyEventsDiffer(s, DropEvent(s, e))
  {
    var c := s[e].scanConfigId;
    WithEventsSame(s, c, RemoveFrom(e, s[c].resourceKind.scanEventIds));
    WithEventsMild(s, c, RemoveFrom(e, s[c].resourceKind.scanEventIds));
  }

  lemma WithEventsSame(s: State, c: Id, ids: seq<Id>)
    requires IsScanConfig(s, c)
    ensures SameFlags(s, WithEvents(s, c, ids)) && SameImages(s, WithEvents(s, c, ids)) && SameValues(s, WithEvents(s, c, ids))
  {
  }

  lemma WithEventsMild(s: State, c: Id, ids: seq<Id>)
    requires IsScanConfig(s, c)
    ensures Mild(s, WithEvents(s, c, ids))
  {
  }

  lemma EventGoesFrames(s: State, e: Id)
    requires IsScanEvent(s, e)
    ensures OnlyEventsDiffer(s, s - {e})
  {
  }

  /** Whether it succeeds or not, deleting an event changes events and parameter values only. */
  lemma DeleteEventFrames(s: State, e: Id)
    ensures OnlyEventsDiffer(s, DeleteScanEvent(s, e).state)
  {
    NothingDiffers(s);
    if IsScanEvent(s, e) && IsScanConfig(s, s[e].scanConfigId) {
      var t := DropEvent(s, e);
      var o := DeleteParameters(t, s[e].valueIds);
      DropEventFrames(s, e);
      DeleteParametersSame(t, s[e].valueIds);
      OnlyEventsTwice(s, t, o.state);
      if o.ok {
        assert IsScanEvent(t, e) && IsScanEvent(o.state, e);
        EventGoesFrames(o.state, e);
        OnlyEventsTwice(s, o.state, o.state - {e});
      }
    }
  }

  lemma ReleaseEvent(s: State, e: Id)
    requires ValuesOk(s) && IsScanEvent(s, e) && IsScanConfig(s, s[e].scanConfigId)
    ensures ValuesReleased(s, WithoutEvent(s, e), e)
  {
    var t := WithoutEvent(s, e);
    forall v | v in s[e].valueIds ensures IsParameter(s, v) { assert Holds(s, e, v); }
    forall y ensures HeldBy(t, y) == if y == e then [] else HeldBy(s, y) {
      assert y in s[e].valueIds ==> IsParameter(s, y);
    }
    forall v | IsParameter(s, v) && !Holds(s, e, v) ensures IsParameter(t, v) { assert v !in s[e].valueIds; }
  }

  lemma DropEventPairs(s: State, e: Id)
    requires EventsOk(s) && IsScanEvent(s, e) && IsScanConfig(s, s[e].scanConfigId)
    ensures forall x, y {:trigger ConfigListsEvent(DropEvent(s, e), x, y)} ::
      ConfigListsEvent(DropEvent(s, e), x, y) <==> ConfigListsEvent(s, x, y) && y != e
    ensures forall x {:trigger IsScanConfig(DropEvent(s, e), x)} ::
      IsScanConfig(DropEvent(s, e), x) ==> NoDup(DropEvent(s, e)[x].resourceKind.scanEventIds)
  {
    var c, t := s[e].scanConfigId, DropEvent(s, e);
    RemoveFromFacts(e, s[c].resourceKind.scanEventIds);
    forall x, y ensures ConfigListsEvent(t, x, y) <==> ConfigListsEvent(s, x, y) && y != e {
      var named := EventNames(s, y, x);
    }
    forall x | IsScanConfig(t, x) ensures NoDup(t[x].resourceKind.scanEventIds) { assert IsScanConfig(s, x); }
  }

  lemma DeleteEventEvents(s: State, e: Id)
    requires EventsOk(s) && IsScanEvent(s, e) && IsScanConfig(s, s[e].scanConfigId)
    requires forall v :: v in s[e].valueIds ==> IsParameter(s, v)
    ensures EventsOk(WithoutEvent(s, e)) && forall c :: !ConfigListsEvent(WithoutEvent(s, e), c, e)
    ensures var t := WithoutEvent(s, e);
      forall x, y {:trigger EventNames(t, y, x)} :: EventNames(t, y, x) <==> EventNames(s, y, x) && y != e
  {
    var u := DropEvent(s, e);
    var t := WithoutEvent(s, e);
    DropEventPairs(s, e);
    assert forall x :: IsScanEvent(t, x) <==> IsScanEvent(s, x) && x != e;
    assert forall x, y {:trigger EventNames(t, y, x)} :: EventNames(t, y, x) <==> EventNames(s, y, x) && y != e;
    assert forall x :: IsScanConfig(t, x) <==> IsScanConfig(u, x);
    assert forall x, y {:trigger ConfigListsEvent(t, x, y)} :: ConfigListsEvent(t, x, y) <==> ConfigListsEvent(u, x, y);
    forall x | IsScanConfig(t, x) ensures NoDup(t[x].resourceKind.scanEventIds) { assert IsScanConfig(u, x); }
  }
}
