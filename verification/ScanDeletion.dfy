/** Deleting scan configs, flags, images and events: nothing that is left names the deleted object. */
module ScanDeletion {
  import opened Basics
  import opened ObjectStore
  import opened Access
  import opened AccessProofs
  import opened ClearProofs
  import opened ScanLinks
  import opened ScanLinkProofs

  // ----- The kinds of link, with config `c` taken out of one side or both -----

  /** The flags no longer list `c`; with `gone`, `c` itself is gone too. */
  ghost predicate FlagsWithout(s: State, t: State, c: Id, gone: bool) {
    && (forall f {:trigger IsFlag(t, f)} :: IsFlag(t, f) <==> IsFlag(s, f))
    && (forall f {:trigger IsFlag(t, f)} :: IsFlag(t, f) ==>
          && NoDup(t[f].resourceKind.usedByScanConfigIds)
          && forall x :: x in t[f].resourceKind.usedByScanConfigIds <==> x in s[f].resourceKind.usedByScanConfigIds && x != c)
    && (forall x {:trigger IsScanConfig(t, x)} :: IsScanConfig(t, x) <==> IsScanConfig(s, x) && !(gone && x == c))
    && (forall x {:trigger IsScanConfig(t, x)} :: IsScanConfig(t, x) ==>
          t[x].resourceKind.flagId == s[x].resourceKind.flagId)
  }

  lemma FlagsWithoutOk(s: State, t: State, c: Id)
    requires FlagsOk(s) && FlagsWithout(s, t, c, true)
    ensures FlagsOk(t) && forall f :: !FlagLists(t, f, c)
  {
    forall x, f | UsesFlag(t, x, f) ensures FlagLists(t, f, x) {
      assert IsScanConfig(t, x) && UsesFlag(s, x, f) && FlagLists(s, f, x);
      assert IsFlag(t, f);
    }
    forall x, f | FlagLists(t, f, x) ensures UsesFlag(t, x, f) {
      assert IsFlag(t, f) && FlagLists(s, f, x) && UsesFlag(s, x, f);
      assert IsScanConfig(t, x);
    }
    forall f ensures !FlagLists(t, f, c) { var live := IsFlag(t, f); }
  }

  /** The images are as they were, and the configs too, apart from `c`, which is gone. */
  ghost predicate ImagesLessConfig(s: State, t: State, c: Id) {
    && (forall i {:trigger IsImage(t, i)} :: IsImage(t, i) <==> IsImage(s, i))
    && (forall i {:trigger IsImage(t, i)} :: IsImage(t, i) ==>
          t[i].resourceKind.scanConfigsToUse == s[i].resourceKind.scanConfigsToUse)
    && (forall x {:trigger IsScanConfig(t, x)} :: IsScanConfig(t, x) <==> IsScanConfig(s, x) && x != c)
    && (forall x {:trigger IsScanConfig(t, x)} :: IsScanConfig(t, x) ==>
          t[x].resourceKind.dockerImageIdsThatUse == s[x].resourceKind.dockerImageIdsThatUse)
  }

  lemma ImagesLessConfigOk(s: State, t: State, c: Id)
    requires ImagesOk(s) && ImagesLessConfig(s, t, c) && forall i :: !ImageLists(s, i, c)
    ensures ImagesOk(t) && forall i :: !ImageLists(t, i, c)
  {
    forall x, i | UsesImage(t, x, i) ensures ImageLists(t, i, x) {
      assert IsScanConfig(t, x) && UsesImage(s, x, i) && ImageLists(s, i, x);
      assert IsImage(t, i);
    }
    forall x, i | ImageLists(t, i, x) ensures UsesImage(t, x, i) {
      assert IsImage(t, i) && ImageLists(s, i, x) && UsesImage(s, x, i);
      assert IsScanConfig(t, x);
    }
    forall i ensures !ImageLists(t, i, c) { var live := IsImage(t, i); assert !ImageLists(s, i, c); }
    forall x | IsScanConfig(t, x) ensures NoDup(t[x].resourceKind.dockerImageIdsThatUse) { assert IsScanConfig(s, x); }
    forall i | IsImage(t, i) ensures NoDup(t[i].resourceKind.scanConfigsToUse) { assert IsImage(s, i); }
  }

  /** `c` uses no image any more, and the other configs use those that they used. */
  ghost predicate ImagesWithout(s: State, t: State, c: Id) {
    forall x, i {:trigger UsesImage(t, x, i)} :: UsesImage(t, x, i) <==> UsesImage(s, x, i) && x != c
  }

  lemma ImagesWithoutSame(s: State, t: State, u: State, c: Id)
    requires ImagesWithout(s, t, c) && SameImages(t, u)
    ensures ImagesWithout(s, u, c)
  {
    forall x, i ensures UsesImage(u, x, i) <==> UsesImage(t, x, i) { assert IsScanConfig(u, x) <==> IsScanConfig(t, x); }
  }

  lemma ImagesSameWithout(s: State, t: State, u: State, c: Id)
    requires SameImages(s, t) && ImagesWithout(t, u, c)
    ensures ImagesWithout(s, u, c)
  {
    forall x, i ensures UsesImage(t, x, i) <==> UsesImage(s, x, i) { assert IsScanConfig(t, x) <==> IsScanConfig(s, x); }
  }

  /** The events no longer name `c`; with `gone`, `c` itself is gone too. */
  ghost predicate EventsWithout(s: State, t: State, c: Id, gone: bool) {
    && (forall e {:trigger IsScanEvent(t, e)} :: IsScanEvent(t, e) <==> IsScanEvent(s, e))
    && (forall e {:trigger IsScanEvent(t, e)} :: IsScanEvent(t, e) ==>
          t[e].scanConfigId == if s[e].scanConfigId == c then NO_ID else s[e].scanConfigId)
    && (forall x {:trigger IsScanConfig(t, x)} :: IsScanConfig(t, x) <==> IsScanConfig(s, x) && !(gone && x == c))
    && (forall x {:trigger IsScanConfig(t, x)} :: IsScanConfig(t, x) ==>
          t[x].resourceKind.scanEventIds == s[x].resourceKind.scanEventIds)
  }

  lemma EventsWithoutOk(s: State, t: State, c: Id)
    requires EventsOk(s) && EventsWithout(s, t, c, true)
    ensures EventsOk(t) && forall e :: !EventNames(t, e, c)
  {
    forall x, e | EventNames(t, e, x) ensures ConfigListsEvent(t, x, e) {
      assert IsScanEvent(t, e) && EventNames(s, e, x) && ConfigListsEvent(s, x, e);
      assert IsScanConfig(t, x);
    }
    forall x, e | ConfigListsEvent(t, x, e) ensures EventNames(t, e, x) {
      assert IsScanConfig(t, x) && ConfigListsEvent(s, x, e) && EventNames(s, e, x);
      assert IsScanEvent(t, e);
    }
    forall e ensures !EventNames(t, e, c) { var live := IsScanEvent(t, e); }
    forall x | IsScanConfig(t, x) ensures NoDup(t[x].resourceKind.scanEventIds) { assert IsScanConfig(s, x); }
  }

  /** The repos no longer list `c`, and `c` is gone; everything else a repo lists is as it was. */
  ghost predicate ReposWithout(s: State, t: State, c: Id) {
    && (forall x {:trigger IsResource(s, x)} :: IsResource(s, x) && x != c ==>
          IsResource(t, x) && t[x].parentId == s[x].parentId && t[x].name == s[x].name)
    && (forall x {:trigger IsScanConfig(s, x)} :: IsScanConfig(s, x) && x != c ==> IsScanConfig(t, x))
    && (forall x {:trigger IsFlag(s, x)} :: IsFlag(s, x) && x != c ==> IsFlag(t, x))
    && (forall x {:trigger IsImage(s, x)} :: IsImage(s, x) && x != c ==> IsImage(t, x))
    && (forall r {:trigger IsRepo(s, r)} :: IsRepo(s, r) && r != c ==> IsRepo(t, r))
    && (forall r {:trigger IsRepo(t, r)} :: IsRepo(t, r) ==>
          && IsRepo(s, r)
          && ListWithout(s[r].resourceKind.scanConfigIds, t[r].resourceKind.scanConfigIds, c)
          && ListWithout(s[r].resourceKind.flagIds, t[r].resourceKind.flagIds, c)
          && ListWithout(s[r].resourceKind.dockerImageIds, t[r].resourceKind.dockerImageIds, c))
  }

  ghost predicate ListWithout(a: seq<Id>, b: seq<Id>, c: Id) {
    (NoDup(a) ==> NoDup(b)) && forall x :: x in b <==> x in a && x != c
  }

  lemma ReposWithoutOk(s: State, t: State, c: Id)
    requires ReposOk(s) && ReposWithout(s, t, c)
    ensures ReposOk(t) && forall r :: !RepoLists(t, r, c)
  {
    forall r, x | RepoLists(t, r, x)
      ensures && x != c && IsResource(t, x) && t[x].parentId == r
              && (x in t[r].resourceKind.scanConfigIds ==> IsScanConfig(t, x))
              && (x in t[r].resourceKind.flagIds ==> IsFlag(t, x))
              && (x in t[r].resourceKind.dockerImageIds ==> IsImage(t, x))
    {
      assert IsRepo(t, r) && RepoLists(s, r, x);
    }
    forall r | IsRepo(t, r)
      ensures && NoDup(t[r].resourceKind.scanConfigIds) && NoDup(t[r].resourceKind.flagIds)
              && NoDup(t[r].resourceKind.dockerImageIds)
    {
      assert IsRepo(s, r);
    }
  }

  // ----- The steps of deleteScanConfig -----

  lemma {:induction false} NullifyEventsMeans(s: State, events: seq<Id>)
    requires forall e :: e in events ==> IsScanEvent(s, e)
    ensures var o := NullifyEvents(s, events);
      && o.ok && o.state.Keys == s.Keys
      && (forall x {:trigger o.state[x]} :: x in s ==>
            o.state[x] == if s[x].ScanEventRec? && x in events then s[x].(scanConfigId := NO_ID) else s[x])
    decreases |events|
  {
    if events != [] {
      assert events[0] in events && IsScanEvent(s, events[0]);
      var s1 := s[events[0] := s[events[0]].(scanConfigId := NO_ID)];
      forall e | e in events[1..] ensures IsScanEvent(s1, e) { assert e in events; }
      NullifyEventsMeans(s1, events[1..]);
      assert forall x :: x in events <==> x == events[0] || x in events[1..];
    }
  }

  /** The loop over parameter values succeeds exactly when each is live and stands in the list once. */
  lemma {:induction false} DeleteParametersIff(s: State, ids: seq<Id>)
    ensures var o := DeleteParameters(s, ids);
      && (o.ok <==> NoDup(ids) && forall v :: v in ids ==> IsParameter(s, v))
      && (o.ok ==> o.state == s - set v | v in ids)
    decreases |ids|
  {
    if ids != [] {
      assert forall v :: v in ids <==> v == ids[0] || v in ids[1..];
      if IsParameter(s, ids[0]) {
        var s1 := s - {ids[0]};
        DeleteParametersIff(s1, ids[1..]);
        NoDupFirst(ids);
        assert forall v :: IsParameter(s1, v) <==> IsParameter(s, v) && v != ids[0];
        if DeleteParameters(s1, ids[1..]).ok {
          assert (set v | v in ids) == {ids[0]} + set v | v in ids[1..];
          assert s - {ids[0]} - (set v | v in ids[1..]) == s - set v | v in ids;
        }
      }
    } else {
      assert s - {} == s && (set v | v in ids) == {};
    }
  }

  lemma NoDupFirst<T>(s: seq<T>)
    requires s != []
    ensures NoDup(s) <==> s[0] !in s[1..] && NoDup(s[1..])
  {
    if s[0] !in s[1..] && NoDup(s[1..]) {
      forall i, j | 0 <= i < j < |s| ensures s[i] != s[j] {
        assert s[j] == s[1..][j - 1] && (i > 0 ==> s[i] == s[1..][i - 1]);
      }
    }
    if NoDup(s) {
      forall i | 0 <= i < |s| - 1 ensures s[1..][i] != s[0] { assert s[1..][i] == s[i + 1]; }
    }
  }

  /** `x` holds no parameter values any more; the others hold what they held, and that is still live. */
  ghost predicate ValuesReleased(s: State, t: State, x: Id) {
    && (forall y {:trigger HeldBy(t, y)} :: HeldBy(t, y) == if y == x then [] else HeldBy(s, y))
    && (forall v {:trigger IsParameter(t, v)} {:trigger IsParameter(s, v)} ::
          IsParameter(s, v) && !Holds(s, x, v) ==> IsParameter(t, v))
  }

  lemma ValuesReleasedOk(s: State, t: State, x: Id)
    requires ValuesOk(s) && ValuesReleased(s, t, x)
    ensures ValuesOk(t)
  {
    forall y, v ensures Holds(t, y, v) <==> Holds(s, y, v) && y != x { assert HeldBy(t, y) == if y == x then [] else HeldBy(s, y); }
    forall y, v | Holds(t, y, v) ensures IsParameter(t, v) {
      assert Holds(s, y, v) && IsParameter(s, v);
      var held := Holds(s, x, v);
    }
    forall y ensures NoDup(HeldBy(t, y)) { assert HeldBy(t, y) == if y == x then [] else HeldBy(s, y); }
  }

  lemma ReleasedSame(s: State, t: State, u: State, x: Id)
    requires ValuesReleased(s, t, x) && SameValues(t, u)
    ensures ValuesReleased(s, u, x)
  {
    forall y ensures HeldBy(u, y) == if y == x then [] else HeldBy(s, y) { assert HeldBy(u, y) == HeldBy(t, y); }
    forall v | IsParameter(s, v) && !Holds(s, x, v) ensures IsParameter(u, v) { assert IsParameter(t, v); }
  }

  lemma SameReleased(s: State, t: State, u: State, x: Id)
    requires SameValues(s, t) && ValuesReleased(t, u, x)
    ensures ValuesReleased(s, u, x)
  {
    forall y ensures HeldBy(u, y) == if y == x then [] else HeldBy(s, y) { assert HeldBy(t, y) == HeldBy(s, y); }
    forall v | IsParameter(s, v) && !Holds(s, x, v) ensures IsParameter(u, v) {
      assert IsParameter(t, v) && HeldBy(t, x) == HeldBy(s, x) && !Holds(t, x, v);
    }
  }

  /** What `x` held is deleted. */
  ghost predicate ValuesGone(s: State, t: State, x: Id) { forall v :: v in HeldBy(s, x) ==> v !in t }

  /** A live config loses its parameter values, and nobody else's. */
  lemma ParametersReleased(s: State, c: Id)
    requires ValuesOk(s) && IsScanConfig(s, c)
    ensures ValuesReleased(s, DeleteAllParameters(s, c), c) && ValuesGone(s, DeleteAllParameters(s, c), c)
  {
    var ids := HeldBy(s, c);
    forall v | v in ids ensures IsParameter(s, v) { assert Holds(s, c, v); }
    DeleteParametersIff(s, ids);
    assert IsResource(s, c);
    var t := DeleteAllParameters(s, c);
    forall y ensures HeldBy(t, y) == if y == c then [] else HeldBy(s, y) {
      assert y in ids ==> IsParameter(s, y);
    }
  }

  lemma {:induction false} UnlinkImagesMeans(s: State, c: Id, images: seq<Id>)
    requires ImagesOk(s) && IsScanConfig(s, c) && forall i :: i in images ==> IsImage(s, i)
    ensures var o := UnlinkImages(s, c, images);
      && o.ok && ImagesOk(o.state) && IsScanConfig(o.state, c)
      && (forall x, y {:trigger UsesImage(o.state, x, y)} ::
            UsesImage(o.state, x, y) <==> UsesImage(s, x, y) && !(x == c && y in images))
      && (forall x, y {:trigger ImageLists(o.state, y, x)} ::
            ImageLists(o.state, y, x) <==> ImageLists(s, y, x) && !(x == c && y in images))
  {
    if images != [] {
      var i := images[0];
      assert IsImage(s, i);
      RemDockerImageImages(s, c, i);
      RemDockerImagePairs(s, c, i);
      var s1 := RemDockerImage(s, c, i).state;
      assert forall x :: x in images <==> x == i || x in images[1..];
      assert forall x {:trigger IsImage(s1, x)} :: IsImage(s1, x) <==> IsImage(s, x);
      UnlinkImagesMeans(s1, c, images[1..]);
    }
  }

  /** The parameter values change, and who holds them; everything else looks the same. */
  ghost predicate OnlyValuesDiffer(s: State, t: State) {
    SameFlags(s, t) && SameImages(s, t) && SameEvents(s, t) && Mild(s, t) && t.Keys <= s.Keys
  }

  lemma OnlyValuesTwice(s: State, t: State, u: State)
    requires OnlyValuesDiffer(s, t) && OnlyValuesDiffer(t, u)
    ensures OnlyValuesDiffer(s, u)
  {
    SameFlagsTwice(s, t, u);
    SameImagesTwice(s, t, u);
    SameEventsTwice(s, t, u);
    MildTwice(s, t, u);
  }

  lemma DeleteParameterSame(s: State, v: Id)
    requires IsParameter(s, v)
    ensures OnlyValuesDiffer(s, s - {v})
  {
  }

  lemma {:induction false} DeleteParametersSame(s: State, ids: seq<Id>)
    ensures OnlyValuesDiffer(s, DeleteParameters(s, ids).state)
    decreases |ids|
  {
    if ids != [] && IsParameter(s, ids[0]) {
      var s1 := s - {ids[0]};
      DeleteParameterSame(s, ids[0]);
      DeleteParametersSame(s1, ids[1..]);
      OnlyValuesTwice(s, s1, DeleteParameters(s1, ids[1..]).state);
    }
  }

  lemma WithParametersSame(s: State, c: Id, ids: seq<Id>)
    requires IsScanConfig(s, c)
    ensures OnlyValuesDiffer(s, WithParameters(s, c, ids))
  {
    WithParametersMild(s, c, ids);
  }

  lemma WithParametersMild(s: State, c: Id, ids: seq<Id>)
    requires IsScanConfig(s, c)
    ensures Mild(s, WithParameters(s, c, ids))
  {
  }

  /** Deleting the config's parameter values, and its list of them, has nothing to do with the links. */
  lemma ParametersSame(s: State, c: Id)
    requires IsScanConfig(s, c)
    ensures OnlyValuesDiffer(s, DeleteAllParameters(s, c))
  {
    var o := DeleteParameters(s, s[c].resourceKind.parameterValueIds);
    DeleteParametersSame(s, s[c].resourceKind.parameterValueIds);
    if o.ok {
      assert IsResource(s, c);
      WithParametersSame(o.state, c, []);
      OnlyValuesTwice(s, o.state, WithParameters(o.state, c, []));
    }
  }

  /** The configs that events name change; everything else looks the same. */
  ghost predicate OnlyNamesDiffer(s: State, t: State) {
    SameFlags(s, t) && SameImages(s, t) && SameValues(s, t) && Mild(s, t) && t.Keys == s.Keys
  }

  lemma OnlyNamesTwice(s: State, t: State, u: State)
    requires OnlyNamesDiffer(s, t) && OnlyNamesDiffer(t, u)
    ensures OnlyNamesDiffer(s, u)
  {
    SameFlagsTwice(s, t, u);
    SameImagesTwice(s, t, u);
    SameValuesTwice(s, t, u);
    MildTwice(s, t, u);
  }

  lemma NullifyOneSame(s: State, e: Id)
    requires IsScanEvent(s, e)
    ensures OnlyNamesDiffer(s, s[e := s[e].(scanConfigId := NO_ID)])
  {
  }

  lemma {:induction false} NullifySame(s: State, events: seq<Id>)
    ensures OnlyNamesDiffer(s, NullifyEvents(s, events).state)
    decreases |events|
  {
    if events != [] && IsScanEvent(s, events[0]) {
      var s1 := s[events[0] := s[events[0]].(scanConfigId := NO_ID)];
      NullifyOneSame(s, events[0]);
      NullifySame(s1, events[1..]);
      OnlyNamesTwice(s, s1, NullifyEvents(s1, events[1..]).state);
    } else {
      NothingDiffers(s);
    }
  }

  /** After the first loop no event names the config. */
  lemma NullifyEventsWithout(s: State, c: Id)
    requires EventsOk(s) && NO_ID !in s && IsScanConfig(s, c)
    ensures var o := NullifyEvents(s, s[c].resourceKind.scanEventIds);
      o.ok && EventsWithout(s, o.state, c, false)
  {
    var events := s[c].resourceKind.scanEventIds;
    forall e ensures e in events <==> EventNames(s, e, c) {
      assert e in events <==> ConfigListsEvent(s, c, e);
    }
    NullifyEventsMeans(s, events);
  }

  lemma {:induction false} UnlinkImagesOnlyImages(s: State, c: Id, images: seq<Id>)
    requires IsScanConfig(s, c)
    ensures OnlyImagesDiffer(s, UnlinkImages(s, c, images).state)
  {
    if images != [] {
      var o := RemDockerImage(s, c, images[0]);
      RemDockerImageOnlyImages(s, c, images[0]);
      if o.ok {
        UnlinkImagesOnlyImages(o.state, c, images[1..]);
        OnlyImagesTwice(s, o.state, UnlinkImages(o.state, c, images[1..]).state);
      }
    }
  }

  lemma RemoveRefWithout(s: State, f: Id, c: Id)
    requires FlagsOk(s) && UsesFlag(s, c, f)
    ensures IsFlag(s, f) && FlagsWithout(s, RemoveRef(s, f, c), c, false)
  {
    assert FlagLists(s, f, c);
    RemoveFromFacts(c, s[f].resourceKind.usedByScanConfigIds);
    forall g, x | IsFlag(s, g) && g != f && x in s[g].resourceKind.usedByScanConfigIds ensures x != c {
      assert FlagLists(s, g, x) && UsesFlag(s, x, g);
    }
    forall g | IsFlag(s, g) ensures NoDup(s[g].resourceKind.usedByScanConfigIds) { }
  }

  /** The first part of Unlink: the flag of the config, if it has one, no longer lists it. */
  function UnlinkFlag(s: State, c: Id): State
    requires IsScanConfig(s, c)
  {
    var f := s[c].resourceKind.flagId;
    if f != NO_ID && IsFlag(s, f) then RemoveRef(s, f, c) else s
  }

  lemma UnlinkFlagMeans(s: State, c: Id)
    requires FlagsOk(s) && IsScanConfig(s, c)
    ensures var f := s[c].resourceKind.flagId; f == NO_ID || IsFlag(s, f)
    ensures FlagsWithout(s, UnlinkFlag(s, c), c, false)
  {
    var f := s[c].resourceKind.flagId;
    if f != NO_ID {
      assert UsesFlag(s, c, f);
      RemoveRefWithout(s, f, c);
    } else {
      forall g, x | IsFlag(s, g) && x in s[g].resourceKind.usedByScanConfigIds ensures x != c {
        assert FlagLists(s, g, x) && UsesFlag(s, x, g);
      }
    }
  }

  lemma UnlinkFlagOnlyFlags(s: State, c: Id)
    requires IsScanConfig(s, c)
    ensures OnlyFlagsDiffer(s, UnlinkFlag(s, c)) && IsScanConfig(UnlinkFlag(s, c), c)
  {
    var f := s[c].resourceKind.flagId;
    NothingDiffers(s);
    if f != NO_ID && IsFlag(s, f) { WithUsedByOnlyFlags(s, f, RemoveFrom(c, s[f].resourceKind.usedByScanConfigIds)); }
  }

  /** The second part of Unlink: no image lists the config any more. */
  lemma UnlinkAllImages(s: State, c: Id)
    requires ImagesOk(s) && IsScanConfig(s, c)
    ensures var o := UnlinkImages(s, c, s[c].resourceKind.dockerImageIdsThatUse);
      o.ok && ImagesOk(o.state) && ImagesWithout(s, o.state, c) && forall i :: !ImageLists(o.state, i, c)
  {
    var images := s[c].resourceKind.dockerImageIdsThatUse;
    forall i | i in images ensures IsImage(s, i) { assert UsesImage(s, c, i) && ImageLists(s, i, c); }
    UnlinkImagesMeans(s, c, images);
    var t := UnlinkImages(s, c, images).state;
    forall i ensures !ImageLists(t, i, c) { var listed, used := ImageLists(s, i, c), UsesImage(s, c, i); }
  }

  /** Flags and images change; everything else looks the same. */
  ghost predicate OnlyUsesDiffer(s: State, t: State) {
    SameEvents(s, t) && SameValues(s, t) && Mild(s, t) && t.Keys == s.Keys
  }

  /** Whether it succeeds or not, Unlink changes flags and images only. */
  lemma UnlinkOnlyUses(s: State, c: Id)
    requires IsScanConfig(s, c)
    ensures OnlyUsesDiffer(s, Unlink(s, c).state)
  {
    var f := s[c].resourceKind.flagId;
    NothingDiffers(s);
    if f == NO_ID || IsFlag(s, f) {
      var s1 := UnlinkFlag(s, c);
      UnlinkFlagOnlyFlags(s, c);
      UnlinkImagesOnlyImages(s1, c, s1[c].resourceKind.dockerImageIdsThatUse);
      var t := UnlinkImages(s1, c, s1[c].resourceKind.dockerImageIdsThatUse).state;
      SameEventsTwice(s, s1, t);
      SameValuesTwice(s, s1, t);
      MildTwice(s, s1, t);
    }
  }

  /** The part of deleteScanConfig between the parameter values and the repo. */
  lemma UnlinkMeans(s: State, c: Id)
    requires FlagsOk(s) && ImagesOk(s) && IsScanConfig(s, c)
    ensures var o := Unlink(s, c); var t := o.state;
      && o.ok && FlagsWithout(s, t, c, false) && ImagesOk(t) && ImagesWithout(s, t, c) && (forall i :: !ImageLists(t, i, c))
      && OnlyUsesDiffer(s, t) && IsScanConfig(t, c)
  {
    var s1 := UnlinkFlag(s, c);
    UnlinkFlagMeans(s, c);
    UnlinkFlagOnlyFlags(s, c);
    ImagesStayOk(s, s1);
    UnlinkAllImages(s1, c);
    UnlinkImagesOnlyImages(s1, c, s1[c].resourceKind.dockerImageIdsThatUse);
    FlagsWithoutSame(s, s1, UnlinkImages(s1, c, s1[c].resourceKind.dockerImageIdsThatUse).state, c);
    ImagesSameWithout(s, s1, UnlinkImages(s1, c, s1[c].resourceKind.dockerImageIdsThatUse).state, c);
    UnlinkOnlyUses(s, c);
  }

  lemma FlagsWithoutSame(s: State, t: State, u: State, c: Id)
    requires FlagsWithout(s, t, c, false) && SameFlags(t, u)
    ensures FlagsWithout(s, u, c, false)
  {
    forall f ensures IsFlag(u, f) <==> IsFlag(s, f) { assert IsFlag(u, f) <==> IsFlag(t, f); }
    forall x ensures IsScanConfig(u, x) <==> IsScanConfig(s, x) { assert IsScanConfig(u, x) <==> IsScanConfig(t, x); }
  }

  // ----- Taking the config out of its repo, clearing its access list, and deleting it -----

  lemma WithRepoKindSame(s: State, r: Id, k: ResourceKind)
    requires IsRepo(s, r) && k.RepoKind?
    ensures SameLinks(s, WithRepoKind(s, r, k)) && SameAccess(s, WithRepoKind(s, r, k))
  {
  }

  /** Clearing access lists changes no shape. */
  lemma ClearedShapes(s: State, rs: set<Id>)
    ensures SameShapes(s, Cleared(s, rs))
  {
  }

  lemma ClearedSame(s: State, x: Id)
    ensures SameLinks(s, Cleared(s, {x})) && SameRepos(s, Cleared(s, {x}))
  {
    ClearedShapes(s, {x});
    ShapesKeepLinks(s, Cleared(s, {x}));
  }

  /** A resource without entries can be deleted. */
  lemma DeleteBareResource(s: State, x: Id)
    requires Consistent(s) && IsResource(s, x) && s[x].acl == []
    ensures Consistent(s - {x}) && MatrixOf(s - {x}) == MatrixOf(s)
  {
    DeleteBareLinked(s, x);
    SameEntriesMatrix(s, s - {x});
  }

  lemma DeleteBareLinked(s: State, x: Id)
    requires Linked(s) && IsResource(s, x) && s[x].acl == []
    ensures Linked(s - {x}) && EntriesWithout(s, s - {x}, {})
  {
    var t := s - {x};
    assert forall y, e {:trigger InAcl(t, y, e)} :: InAcl(t, y, e) <==> InAcl(s, y, e);
    forall e | IsEntry(t, e)
      ensures && IsResource(t, t[e].resourceId) && InAcl(t, t[e].resourceId, e)
              && IsParty(t, t[e].partyId) && InAcl(t, t[e].partyId, e)
    {
      assert IsEntry(s, e) && InAcl(s, s[e].resourceId, e);
    }
    assert forall y {:trigger HasAcl(t, y)} :: HasAcl(t, y) ==> HasAcl(s, y);
  }

  /** The state deleteScanConfig reaches, if nothing fails, before it looks at the repo. */
  function UpToRepo(s: State, c: Id): (t: State)
    requires IsScanConfig(s, c)
    ensures IsScanConfig(t, c) && forall x {:trigger IsRepo(s, x)} :: IsRepo(s, x) ==> IsRepo(t, x)
  {
    var s1 := NullifyEvents(s, s[c].resourceKind.scanEventIds).state;
    assert IsResource(s, c) && forall x :: IsRepo(s, x) ==> IsResource(s, x);
    Unlink(DeleteAllParameters(s1, c), c).state
  }

  /** The repo no longer lists the config. */
  function DropFromRepo(s: State, repoId: Id, c: Id): State
    requires IsRepo(s, repoId)
  {
    var k := s[repoId].resourceKind;
    WithRepoKind(s, repoId, k.(scanConfigIds := RemoveFrom(c, k.scanConfigIds)))
  }

  /** The state deleteScanConfig reaches, if nothing fails, just before it clears the config's access list. */
  function BeforeClear(s: State, repoId: Id, c: Id): (t: State)
    requires IsRepo(s, repoId) && IsScanConfig(s, c)
    ensures IsScanConfig(t, c)
  {
    DropFromRepo(UpToRepo(s, c), repoId, c)
  }

  /** Up to and including the parameter values, only the events and the parameter values have changed. */
  lemma FirstSteps(s: State, c: Id)
    requires LinksOk(s) && IsScanConfig(s, c)
    ensures var o := NullifyEvents(s, s[c].resourceKind.scanEventIds);
      && o.ok && IsScanConfig(o.state, c)
      && var t := DeleteAllParameters(o.state, c);
        && EventsWithout(s, t, c, false) && ValuesReleased(s, t, c) && ValuesGone(s, t, c)
        && SameFlags(s, t) && SameImages(s, t) && Mild(s, t) && t.Keys <= s.Keys
  {
    var s1 := NullifyEvents(s, s[c].resourceKind.scanEventIds).state;
    NullifyEventsWithout(s, c);
    FirstStepsSame(s, c);
    ParametersSame(s1, c);
    EventsWithoutSame(s, s1, DeleteAllParameters(s1, c), c);
    NullifySame(s, s[c].resourceKind.scanEventIds);
    ValuesStayOk(s, s1);
    ParametersReleased(s1, c);
    SameReleased(s, s1, DeleteAllParameters(s1, c), c);
    assert HeldBy(s1, c) == HeldBy(s, c);
  }

  /** Whether they succeed or not, the first steps change events and parameter values only. */
  lemma FirstStepsSame(s: State, c: Id)
    requires IsScanConfig(s, c)
    ensures var s1 := NullifyEvents(s, s[c].resourceKind.scanEventIds).state;
      && IsScanConfig(s1, c)
      && var t := DeleteAllParameters(s1, c);
        SameFlags(s, t) && SameImages(s, t) && Mild(s, t) && t.Keys <= s.Keys
  {
    var s1 := NullifyEvents(s, s[c].resourceKind.scanEventIds).state;
    NullifySame(s, s[c].resourceKind.scanEventIds);
    assert IsResource(s, c);
    var t := DeleteAllParameters(s1, c);
    ParametersSame(s1, c);
    SameFlagsTwice(s, s1, t);
    SameImagesTwice(s, s1, t);
    MildTwice(s, s1, t);
  }

  lemma EventsWithoutSame(s: State, t: State, u: State, c: Id)
    requires EventsWithout(s, t, c, false) && SameEvents(t, u)
    ensures EventsWithout(s, u, c, false)
  {
    forall e ensures IsScanEvent(u, e) <==> IsScanEvent(s, e) { assert IsScanEvent(u, e) <==> IsScanEvent(t, e); }
    forall x ensures IsScanConfig(u, x) <==> IsScanConfig(s, x) { assert IsScanConfig(u, x) <==> IsScanConfig(t, x); }
  }

  lemma FlagsSameWithout(s: State, t: State, u: State, c: Id)
    requires SameFlags(s, t) && FlagsWithout(t, u, c, false)
    ensures FlagsWithout(s, u, c, false)
  {
    forall f ensures IsFlag(u, f) <==> IsFlag(s, f) { assert IsFlag(u, f) <==> IsFlag(t, f); }
    forall x ensures IsScanConfig(u, x) <==> IsScanConfig(s, x) { assert IsScanConfig(u, x) <==> IsScanConfig(t, x); }
  }

  /** A repo drops one of its children; the other repos never had it. */
  lemma RepoDrops(s: State, repoId: Id, x: Id, k: ResourceKind)
    requires ReposOk(s) && IsRepo(s, repoId) && IsResource(s, x) && s[x].parentId == repoId && k.RepoKind?
    requires ListWithout(s[repoId].resourceKind.scanConfigIds, k.scanConfigIds, x)
    requires ListWithout(s[repoId].resourceKind.flagIds, k.flagIds, x)
    requires ListWithout(s[repoId].resourceKind.dockerImageIds, k.dockerImageIds, x)
    ensures ReposWithout(s, WithRepoKind(s, repoId, k), x)
  {
    forall r | IsRepo(s, r) && r != repoId
      ensures x !in s[r].resourceKind.scanConfigIds && x !in s[r].resourceKind.flagIds && x !in s[r].resourceKind.dockerImageIds
    {
      var listed := RepoLists(s, r, x);
    }
  }

  lemma RepoDropsConfig(s: State, repoId: Id, c: Id)
    requires ReposOk(s) && IsRepo(s, repoId) && IsScanConfig(s, c) && s[c].parentId == repoId
    ensures ReposWithout(s, DropFromRepo(s, repoId, c), c)
  {
    var k := s[repoId].resourceKind;
    RemoveFromFacts(c, k.scanConfigIds);
    var listed := RepoLists(s, repoId, c);
    RepoDrops(s, repoId, c, k.(scanConfigIds := RemoveFrom(c, k.scanConfigIds)));
  }

  lemma UpToRepoMild(s: State, c: Id)
    requires IsScanConfig(s, c)
    ensures Mild(s, UpToRepo(s, c)) && UpToRepo(s, c).Keys <= s.Keys
  {
    var s2 := DeleteAllParameters(NullifyEvents(s, s[c].resourceKind.scanEventIds).state, c);
    FirstStepsSame(s, c);
    UnlinkOnlyUses(s2, c);
    MildTwice(s, s2, UpToRepo(s, c));
  }

  /** The links of everything but the repos, just before the repo is looked at. */
  lemma UpToRepoMeans(s: State, c: Id)
    requires LinksOk(s) && IsScanConfig(s, c)
    ensures var t := UpToRepo(s, c);
      && FlagsWithout(s, t, c, false) && EventsWithout(s, t, c, false) && ValuesReleased(s, t, c) && ValuesGone(s, t, c)
      && ImagesOk(t) && ImagesWithout(s, t, c) && (forall i :: !ImageLists(t, i, c))
  {
    FirstSteps(s, c);
    var s2 := DeleteAllParameters(NullifyEvents(s, s[c].resourceKind.scanEventIds).state, c);
    var s3 := UpToRepo(s, c);
    FlagsStayOk(s, s2);
    ImagesStayOk(s, s2);
    UnlinkMeans(s2, c);
    FlagsSameWithout(s, s2, s3, c);
    ImagesSameWithout(s, s2, s3, c);
    EventsWithoutSame(s, s2, s3, c);
    ReleasedSame(s, s2, s3, c);
  }

  lemma DropFromRepoSame(s: State, repoId: Id, c: Id)
    requires IsRepo(s, repoId)
    ensures var t := DropFromRepo(s, repoId, c); SameLinks(s, t) && SameAccess(s, t) && t.Keys == s.Keys
  {
    var k := s[repoId].resourceKind;
    WithRepoKindSame(s, repoId, k.(scanConfigIds := RemoveFrom(c, k.scanConfigIds)));
  }

  /** What is known just before the access list is cleared. */
  lemma BeforeClearMeans(s: State, repoId: Id, c: Id)
    requires LinksOk(s) && IsRepo(s, repoId) && IsScanConfig(s, c)
    ensures var t := BeforeClear(s, repoId, c);
      && FlagsWithout(s, t, c, false) && EventsWithout(s, t, c, false) && ValuesReleased(s, t, c) && ValuesGone(s, t, c)
      && ImagesOk(t) && ImagesWithout(s, t, c) && (forall i :: !ImageLists(t, i, c))
  {
    var s3, s4 := UpToRepo(s, c), BeforeClear(s, repoId, c);
    UpToRepoMeans(s, c);
    DropFromRepoSame(s3, repoId, c);
    FlagsWithoutSame(s, s3, s4, c);
    EventsWithoutSame(s, s3, s4, c);
    ReleasedSame(s, s3, s4, c);
    ImagesWithoutSame(s, s3, s4, c);
    ImagesStayOk(s3, s4);
    forall i ensures !ImageLists(s4, i, c) { assert IsImage(s4, i) <==> IsImage(s3, i); assert !ImageLists(s3, i, c); }
  }

  /** In a store that is in step nothing fails before the access list is cleared. */
  lemma ReachesClear(s: State, repoId: Id, c: Id)
    requires LinksOk(s) && IsRepo(s, repoId) && IsScanConfig(s, c)
    ensures DeleteScanConfig(s, repoId, c)
         == (var o := DeleteAllAccess(BeforeClear(s, repoId, c), c); if !o.ok then o else Outcome(o.state - {c}, true))
  {
    FirstSteps(s, c);
    var s2 := DeleteAllParameters(NullifyEvents(s, s[c].resourceKind.scanEventIds).state, c);
    FlagsStayOk(s, s2);
    ImagesStayOk(s, s2);
    UnlinkMeans(s2, c);
  }

  lemma BeforeClearRepos(s: State, repoId: Id, c: Id)
    requires ReposOk(s) && IsRepo(s, repoId) && IsScanConfig(s, c) && s[c].parentId == repoId
    ensures ReposWithout(s, BeforeClear(s, repoId, c), c)
  {
    var s3 := UpToRepo(s, c);
    UpToRepoMild(s, c);
    ReposStayOk(s, s3);
    assert IsResource(s, c);
    RepoDropsConfig(s3, repoId, c);
    ReposSameWithout(s, s3, BeforeClear(s, repoId, c), c);
  }

  lemma ReposSameWithout(s: State, t: State, u: State, c: Id)
    requires SameRepos(s, t) && ReposWithout(t, u, c)
    ensures ReposWithout(s, u, c)
  {
  }

  /** Nothing in the state names the object `c`. */
  ghost predicate Unnamed(s: State, c: Id) {
    && c !in s
    && (forall f :: !FlagLists(s, f, c)) && (forall x :: !UsesFlag(s, x, c))
    && (forall i :: !ImageLists(s, i, c)) && (forall x :: !UsesImage(s, x, c))
    && (forall e :: !EventNames(s, e, c)) && (forall r :: !RepoLists(s, r, c))
    && (forall e :: IsEntry(s, e) ==> s[e].resourceId != c)
    && (forall x, e :: InAcl(s, x, e) ==> IsEntry(s, e) && s[e].resourceId != c)
  }

  /** Everything that `s` has names the config no more in `t`, apart from the config's own lists. */
  ghost predicate Unlinked(s: State, t: State, c: Id) {
    && IsScanConfig(t, c) && NO_ID !in t && ImagesOk(t) && ImagesWithout(s, t, c) && (forall i :: !ImageLists(t, i, c))
    && FlagsWithout(s, t, c, false) && EventsWithout(s, t, c, false) && ReposWithout(s, t, c) && ValuesReleased(s, t, c)
  }

  /** Deleting the config itself, once nothing names it. */
  lemma DeleteUnlinkedConfig(s: State, t: State, c: Id)
    requires LinksOk(s) && Unlinked(s, t, c)
    ensures LinksOk(t - {c})
    ensures forall x :: !FlagLists(t - {c}, x, c) && !ImageLists(t - {c}, x, c)
    ensures forall x :: !EventNames(t - {c}, x, c) && !RepoLists(t - {c}, x, c)
  {
    DeletedConfigFlags(s, t, c);
    DeletedConfigEvents(s, t, c);
    DeletedConfigImages(t, c);
    DeletedConfigValues(s, t, c);
    DeletedRepos(s, t, c);
  }

  lemma DeletedConfigImages(t: State, c: Id)
    requires ImagesOk(t) && IsScanConfig(t, c) && forall i :: !ImageLists(t, i, c)
    ensures ImagesOk(t - {c}) && forall i :: !ImageLists(t - {c}, i, c)
  {
    ImagesLessConfigOk(t, t - {c}, c);
  }

  lemma DeletedConfigValues(s: State, t: State, c: Id)
    requires ValuesOk(s) && ValuesReleased(s, t, c) && IsScanConfig(t, c)
    ensures ValuesOk(t - {c})
  {
    assert HeldBy(t, c) == [];
    ReleasedSame(s, t, t - {c}, c);
    ValuesReleasedOk(s, t - {c}, c);
  }

  lemma DeletedRepos(s: State, t: State, x: Id)
    requires ReposOk(s) && ReposWithout(s, t, x) && IsResource(t, x)
    ensures ReposOk(t - {x}) && forall r :: !RepoLists(t - {x}, r, x)
  {
    forall r | IsRepo(t - {x}, r) ensures IsRepo(t, r) { }
    ReposWithoutOk(s, t - {x}, x);
  }

  lemma DeletedConfigFlags(s: State, t: State, c: Id)
    requires FlagsOk(s) && FlagsWithout(s, t, c, false) && IsScanConfig(t, c)
    ensures FlagsOk(t - {c}) && forall f :: !FlagLists(t - {c}, f, c)
  {
    var u := t - {c};
    forall f ensures IsFlag(u, f) <==> IsFlag(s, f) { assert IsFlag(t, f) <==> IsFlag(s, f); }
    forall x ensures IsScanConfig(u, x) <==> IsScanConfig(s, x) && x != c { assert IsScanConfig(t, x) <==> IsScanConfig(s, x); }
    forall x | IsScanConfig(u, x) ensures u[x].resourceKind.flagId == s[x].resourceKind.flagId { assert IsScanConfig(t, x); }
    forall f | IsFlag(u, f)
      ensures && NoDup(u[f].resourceKind.usedByScanConfigIds)
              && forall x :: x in u[f].resourceKind.usedByScanConfigIds <==> x in s[f].resourceKind.usedByScanConfigIds && x != c
    {
      assert IsFlag(t, f);
    }
    FlagsWithoutOk(s, u, c);
  }

  lemma DeletedConfigEvents(s: State, t: State, c: Id)
    requires EventsOk(s) && EventsWithout(s, t, c, false) && IsScanConfig(t, c)
    ensures EventsOk(t - {c}) && forall e :: !EventNames(t - {c}, e, c)
  {
    var u := t - {c};
    forall e ensures IsScanEvent(u, e) <==> IsScanEvent(s, e) { assert IsScanEvent(t, e) <==> IsScanEvent(s, e); }
    forall e | IsScanEvent(u, e)
      ensures u[e].scanConfigId == if s[e].scanConfigId == c then NO_ID else s[e].scanConfigId
    {
      assert IsScanEvent(t, e);
    }
    forall x ensures IsScanConfig(u, x) <==> IsScanConfig(s, x) && x != c { assert IsScanConfig(t, x) <==> IsScanConfig(s, x); }
    forall x | IsScanConfig(u, x) ensures u[x].resourceKind.scanEventIds == s[x].resourceKind.scanEventIds {
      assert IsScanConfig(t, x);
    }
    EventsWithoutOk(s, u, c);
  }

  lemma ReposWithoutSame(s: State, t: State, u: State, c: Id)
    requires ReposWithout(s, t, c) && SameRepos(t, u)
    ensures ReposWithout(s, u, c)
  {
    forall r | IsRepo(u, r) ensures IsRepo(t, r) { }
  }

  lemma UnlinkedSame(s: State, t: State, u: State, c: Id)
    requires Unlinked(s, t, c) && SameLinks(t, u) && SameRepos(t, u) && u.Keys <= t.Keys
    ensures Unlinked(s, u, c)
  {
    FlagsWithoutSame(s, t, u, c);
    EventsWithoutSame(s, t, u, c);
    ReposWithoutSame(s, t, u, c);
    ReleasedSame(s, t, u, c);
    ImagesWithoutSame(s, t, u, c);
    ImagesStayOk(t, u);
    assert IsScanConfig(u, c) <==> IsScanConfig(t, c);
    forall i ensures !ImageLists(u, i, c) { assert IsImage(u, i) <==> IsImage(t, i); assert !ImageLists(t, i, c); }
  }

  /** Apart from `x`, what `x` held and the links to it, all resources, lists of repos, links and values are as they were. */
  ghost predicate OthersStay(s: State, t: State, x: Id) {
    OtherResources(s, t, x) && OtherUses(s, t, x) && OtherEvents(s, t, x)
  }

  ghost predicate OtherResources(s: State, t: State, x: Id) {
    && (forall y {:trigger IsResource(s, y)} :: IsResource(s, y) && y != x ==>
          IsResource(t, y) && t[y].name == s[y].name && t[y].parentId == s[y].parentId)
    && (forall r, y {:trigger RepoLists(t, r, y)} :: RepoLists(t, r, y) <==> RepoLists(s, r, y) && y != x)
  }

  ghost predicate OtherUses(s: State, t: State, x: Id) {
    && (forall c, f {:trigger UsesFlag(t, c, f)} :: UsesFlag(t, c, f) <==> UsesFlag(s, c, f) && c != x && f != x)
    && (forall c, i {:trigger UsesImage(t, c, i)} :: UsesImage(t, c, i) <==> UsesImage(s, c, i) && c != x && i != x)
  }

  ghost predicate OtherEvents(s: State, t: State, x: Id) {
    && (forall c, e {:trigger EventNames(t, e, c)} :: EventNames(t, e, c) <==> EventNames(s, e, c) && c != x && e != x)
    && (forall y {:trigger HeldBy(t, y)} :: HeldBy(t, y) == if y == x then [] else HeldBy(s, y))
  }

  /** A resource that is no repo goes, once no repo lists it. */
  lemma GoneFromRepos(s: State, t: State, x: Id)
    requires ReposWithout(s, t, x) && IsResource(t, x) && !IsRepo(t, x) && !IsRepo(s, x)
    ensures OtherResources(s, t - {x}, x)
  {
    var u := t - {x};
    forall r, y ensures RepoLists(u, r, y) <==> RepoLists(s, r, y) && y != x {
      assert IsRepo(u, r) <==> IsRepo(t, r);
      assert IsRepo(t, r) <==> IsRepo(s, r);
    }
  }

  /** The config goes: nothing but the config and its links changes. */
  lemma ConfigGoneUses(s: State, t: State, c: Id)
    requires FlagsOk(s) && ImagesOk(s) && FlagsWithout(s, t, c, false) && ImagesWithout(s, t, c) && IsScanConfig(t, c)
    ensures OtherUses(s, t - {c}, c)
  {
    var u := t - {c};
    assert IsScanConfig(s, c);
    forall x, f ensures UsesFlag(u, x, f) <==> UsesFlag(s, x, f) && x != c && f != c {
      assert IsScanConfig(t, x) <==> IsScanConfig(s, x);
      assert UsesFlag(s, x, f) ==> FlagLists(s, f, x);
    }
    forall x, i ensures UsesImage(u, x, i) <==> UsesImage(s, x, i) && x != c && i != c {
      assert UsesImage(t, x, i) <==> UsesImage(s, x, i) && x != c;
      assert UsesImage(s, x, i) ==> ImageLists(s, i, x);
    }
  }

  lemma ConfigGoneEvents(s: State, t: State, c: Id)
    requires EventsWithout(s, t, c, false) && ValuesReleased(s, t, c) && IsScanConfig(t, c)
    ensures OtherEvents(s, t - {c}, c)
  {
    var u := t - {c};
    assert IsScanConfig(s, c);
    forall x, e ensures EventNames(u, e, x) <==> EventNames(s, e, x) && x != c && e != c {
      assert IsScanEvent(t, e) <==> IsScanEvent(s, e);
    }
    forall y ensures HeldBy(u, y) == if y == c then [] else HeldBy(s, y) { assert y != c ==> HeldBy(u, y) == HeldBy(t, y); }
  }

  /** Every permission on other resources is as it was, and there is none on `c`. */
  ghost predicate LosesOnly(s: State, t: State, c: Id)
    requires OneEntryPerPair(s) && OneEntryPerPair(t)
  {
    && (forall p, r :: (p, r) in MatrixOf(t) <==> (p, r) in MatrixOf(s) && r != c)
    && (forall p, r :: (p, r) in MatrixOf(t) ==> MatrixOf(t)[(p, r)] == MatrixOf(s)[(p, r)])
  }

  /** Clearing the access list of a resource and deleting the resource. */
  lemma ClearAndDelete(t: State, c: Id)
    requires Consistent(t) && IsResource(t, c)
    ensures var u := Cleared(t, {c});
      && DeleteAllAccess(t, c) == Outcome(u, true) && IsResource(u, c) && u.Keys <= t.Keys
      && Consistent(u - {c}) && LosesOnly(t, u - {c}, c)
  {
    var u := Cleared(t, {c});
    DeleteAllAccessClears(t, c);
    ClearedBare(t, c);
    ClearedLosesOnly(t, c);
    DeleteBareResource(u, c);
  }

  lemma ClearedBare(t: State, c: Id)
    requires IsResource(t, c)
    ensures var u := Cleared(t, {c}); IsResource(u, c) && u[c].acl == [] && u.Keys <= t.Keys
  {
  }

  lemma ClearedLosesOnly(t: State, c: Id)
    requires Consistent(t)
    ensures Consistent(Cleared(t, {c})) && LosesOnly(t, Cleared(t, {c}), c)
  {
    ClearedConsistent(t, {c});
  }

  /**
  repo.deleteScanConfig, called for the config's own repo, succeeds and leaves nothing behind: no flag, image, event,
  repo list or access list names the config, its parameter values are gone, and the links are in step. All other
  resources, lists and links stay, and every permission on other resources.
  */
  lemma DeleteScanConfigMeans(s: State, repoId: Id, c: Id)
    requires LinksOk(s) && Consistent(s) && IsRepo(s, repoId) && IsScanConfig(s, c) && s[c].parentId == repoId
    ensures var o := DeleteScanConfig(s, repoId, c);
      && o.ok && LinksOk(o.state) && Consistent(o.state) && Unnamed(o.state, c)
      && LosesOnly(s, o.state, c) && OthersStay(s, o.state, c) && ValuesGone(s, o.state, c)
  {
    var t := BeforeClear(s, repoId, c);
    ReachesClear(s, repoId, c);
    BeforeClearMeans(s, repoId, c);
    BeforeClearRepos(s, repoId, c);
    BeforeClearAccess(s, repoId, c);
    FinishDeletion(s, t, c);
  }

  lemma FinishDeletion(s: State, t: State, c: Id)
    requires LinksOk(s) && Unlinked(s, t, c) && Consistent(t)
    ensures var o := DeleteAllAccess(t, c); var u := o.state - {c};
      && o.ok && LinksOk(u) && Consistent(u) && Unnamed(u, c) && LosesOnly(t, u, c) && OthersStay(s, u, c)
      && u.Keys <= t.Keys
  {
    ClearAndDelete(t, c);
    ClearedSame(t, c);
    UnlinkedSame(s, t, Cleared(t, {c}), c);
    DeleteUnlinkedConfig(s, Cleared(t, {c}), c);
    UnlinkedConfigGone(s, Cleared(t, {c}), c);
    DeletedIsUnnamed(Cleared(t, {c}) - {c}, c);
  }

  lemma UnlinkedConfigGone(s: State, t: State, c: Id)
    requires LinksOk(s) && Unlinked(s, t, c)
    ensures OthersStay(s, t - {c}, c)
  {
    assert IsScanConfig(s, c);
    GoneFromRepos(s, t, c);
    ConfigGoneUses(s, t, c);
    ConfigGoneEvents(s, t, c);
  }

  lemma DeletedIsUnnamed(t: State, c: Id)
    requires LinksOk(t) && Consistent(t) && c !in t
    requires forall x :: !FlagLists(t, x, c) && !ImageLists(t, x, c)
    requires forall x :: !EventNames(t, x, c) && !RepoLists(t, x, c)
    ensures Unnamed(t, c)
  {
    forall x ensures !UsesFlag(t, x, c) { var listed := FlagLists(t, c, x); }
    forall x ensures !UsesImage(t, x, c) { var listed := ImageLists(t, c, x); }
    forall e | IsEntry(t, e) ensures t[e].resourceId != c { }
    forall x, e | InAcl(t, x, e) ensures IsEntry(t, e) && t[e].resourceId != c { }
  }

  /** None of the steps before the clearing touches a permission or creates an object. */
  lemma BeforeClearAccess(s: State, repoId: Id, c: Id)
    requires Consistent(s) && IsRepo(s, repoId) && IsScanConfig(s, c)
    ensures var t := BeforeClear(s, repoId, c); Consistent(t) && MatrixOf(t) == MatrixOf(s) && t.Keys <= s.Keys
  {
    UpToRepoMild(s, c);
    DropFromRepoSame(UpToRepo(s, c), repoId, c);
    SameAccessConsistent(s, UpToRepo(s, c));
    SameAccessConsistent(UpToRepo(s, c), BeforeClear(s, repoId, c));
  }
}
