/** Whole runs of the link operations, failed calls included. */
module ScanLinkRuns {
  import opened Basics
  import opened ObjectStore
  import opened Access
  import opened ScanLinks
  import opened ScanLinkProofs
  import opened ScanDeletion
  import opened ScanRemoval
  import opened ScanLinkCreation

  datatype LinkOp =
    | Store(rec: Record)
    | NewConfig(name: string, repoId: Id, parameterIds: seq<Id>, flagId: Id)
    | NewFlag(name: string, repoId: Id)
    | NewImage(name: string, repoId: Id)
    | NewEvent(scanConfigId: Id, userObjId: Id, versionLive: bool, values: seq<Id>)
    | NewParameter(scanConfigId: Id)
    | SetFlag(scanConfigId: Id, flagId: Id)
    | AddImage(scanConfigId: Id, imageId: Id)
    | RemImage(scanConfigId: Id, imageId: Id)
    | DropConfig(scanConfigId: Id)
    | DropFlag(flagId: Id, fileRemoved: bool)
    | DropImage(imageId: Id, versionsDeleted: bool)
    | DropEvent(eventId: Id)

  /** The ids that the operation hands out are new. */
  ghost predicate FreshIds(s: State, op: LinkOp, newId: Id) {
    newId !in s && newId != NO_ID && (op.NewEvent? ==> FreshValues(s, op.values, newId))
  }

  /** What the handlers do: look the object up, then its repo, then call the operation. */
  function LinkStep(s: State, op: LinkOp, newId: Id): Outcome
    requires FreshIds(s, op, newId)
  {
    match op
    case Store(rec) => if Bare(rec) then Outcome(s[newId := rec], true) else Outcome(s, false)
    case NewConfig(n, r, ps, f) => CreateScanConfig(s, n, r, ps, f, newId)
    case NewFlag(n, r) => CreateFlag(s, n, r, newId)
    case NewImage(n, r) => CreateDockerImage(s, n, r, newId)
    case NewEvent(c, u, live, vs) => CreateScanEvent(s, c, u, live, vs, newId)
    case NewParameter(c) => CreateParameter(s, c, newId)
    case SetFlag(c, f) => if IsScanConfig(s, c) then SetFlagId(s, c, f) else Outcome(s, false)
    case AddImage(c, i) => if IsScanConfig(s, c) then AddDockerImage(s, c, i) else Outcome(s, false)
    case RemImage(c, i) => if IsScanConfig(s, c) then RemDockerImage(s, c, i) else Outcome(s, false)
    case DropConfig(c) =>
      if IsScanConfig(s, c) && IsRepo(s, s[c].parentId) then DeleteScanConfig(s, s[c].parentId, c) else Outcome(s, false)
    case DropFlag(f, removed) =>
      if IsFlag(s, f) && IsRepo(s, s[f].parentId) then DeleteFlag(s, s[f].parentId, f, removed) else Outcome(s, false)
    case DropImage(i, deleted) =>
      if IsImage(s, i) && IsRepo(s, s[i].parentId) then DeleteDockerImage(s, s[i].parentId, i, deleted) else Outcome(s, false)
    case DropEvent(e) => DeleteScanEvent(s, e)
  }

  // ----- Operations that break nothing -----

  /**
  What keeps the links in step, whether the operation succeeds or fails: no config is stored with a dead flag or with
  values that are not free, no event for a user that does not exist, and no image that does not exist is linked.
  */
  ghost predicate Harmless(s: State, op: LinkOp) {
    match op
    case NewConfig(n, r, ps, f) => ConfigIsStored(s, n, r) ==> FlagLive(s, f) && FreeParameters(s, ps)
    case NewEvent(c, u, _, _) => IsScanConfig(s, c) ==> IsUser(s, u)
    case AddImage(c, i) => IsScanConfig(s, c) ==> IsImage(s, i)
    case _ => true
  }

  /** The operation makes a new object. */
  predicate Makes(op: LinkOp) { op.Store? || op.NewConfig? || op.NewFlag? || op.NewImage? || op.NewEvent? || op.NewParameter? }

  lemma MakingIff(s: State, op: LinkOp, newId: Id)
    requires LinksOk(s) && Consistent(s) && FreshIds(s, op, newId) && Makes(op)
    ensures LinksOk(LinkStep(s, op, newId).state) <==> Harmless(s, op)
  {
    match op
    case Store(rec) => if Bare(rec) { StoreBareLinks(s, newId, rec); }
    case NewConfig(n, r, ps, f) => CreateScanConfigMeans(s, n, r, ps, f, newId);
    case NewFlag(n, r) => CreateFlagMeans(s, n, r, newId);
    case NewImage(n, r) => CreateDockerImageMeans(s, n, r, newId);
    case NewEvent(c, u, live, vs) => CreateScanEventMeans(s, c, u, live, vs, newId);
    case NewParameter(c) => CreateParameterMeans(s, c, newId);
  }

  lemma ChangingIff(s: State, op: LinkOp, newId: Id)
    requires LinksOk(s) && Consistent(s) && FreshIds(s, op, newId) && !Makes(op)
    ensures LinksOk(LinkStep(s, op, newId).state) <==> Harmless(s, op)
  {
    match op
    case SetFlag(c, f) => if IsScanConfig(s, c) { SetFlagIdMeans(s, c, f); }
    case AddImage(c, i) => if IsScanConfig(s, c) { AddDockerImageIff(s, c, i); }
    case RemImage(c, i) => if IsScanConfig(s, c) { RemImageKeeps(s, c, i); }
    case DropConfig(c) => if IsScanConfig(s, c) && IsRepo(s, s[c].parentId) { DeleteScanConfigMeans(s, s[c].parentId, c); }
    case DropFlag(f, removed) => if IsFlag(s, f) && IsRepo(s, s[f].parentId) { DeleteFlagMeans(s, s[f].parentId, f, removed); }
    case DropImage(i, deleted) =>
      if IsImage(s, i) && IsRepo(s, s[i].parentId) { DeleteDockerImageMeans(s, s[i].parentId, i, deleted); }
    case DropEvent(e) => DeleteScanEventMeans(s, e);
  }

  /** An operation, successful or not, keeps the links in step exactly when it is harmless. */
  lemma LinkStepIff(s: State, op: LinkOp, newId: Id)
    requires LinksOk(s) && Consistent(s) && FreshIds(s, op, newId)
    ensures LinksOk(LinkStep(s, op, newId).state) <==> Harmless(s, op)
  {
    if Makes(op) { MakingIff(s, op, newId); } else { ChangingIff(s, op, newId); }
  }

  /** Unlinking an image keeps the links, whether it is live or not. */
  lemma RemImageKeeps(s: State, c: Id, i: Id)
    requires LinksOk(s) && IsScanConfig(s, c)
    ensures LinksOk(RemDockerImage(s, c, i).state)
  {
    if IsImage(s, i) {
      RemDockerImageKeeps(s, c, i);
    } else {
      var ids := s[c].resourceKind.dockerImageIdsThatUse;
      var used, listed := UsesImage(s, c, i), ImageLists(s, i, c);
      RemoveFromIsWithout(i, ids);
      WithoutNothing(ids, {i});
      assert RemDockerImage(s, c, i).state == s;
    }
  }

  // ----- Whatever the links are like -----

  lemma DeleteConfigSafe(s: State, repoId: Id, c: Id)
    requires ReposOk(s) && Consistent(s) && IsRepo(s, repoId) && IsScanConfig(s, c) && s[c].parentId == repoId
    ensures var o := DeleteScanConfig(s, repoId, c); ReposOk(o.state) && Consistent(o.state)
  {
    var o1 := NullifyEvents(s, s[c].resourceKind.scanEventIds);
    NullifySame(s, s[c].resourceKind.scanEventIds);
    MildOk(s, o1.state);
    if o1.ok {
      UpToRepoMild(s, c);
      MildOk(s, UpToRepo(s, c));
      assert IsResource(s, c);
      if Unlink(DeleteAllParameters(o1.state, c), c).ok { FinishSafe(s, repoId, c); }
    }
  }

  /** The end of deleteScanConfig: the repo's list, the access list and the object. */
  lemma FinishSafe(s: State, repoId: Id, c: Id)
    requires ReposOk(s) && Consistent(s) && IsRepo(s, repoId) && IsScanConfig(s, c) && s[c].parentId == repoId
    ensures var o := DeleteAllAccess(BeforeClear(s, repoId, c), c);
      o.ok && ReposOk(o.state - {c}) && Consistent(o.state - {c})
  {
    var t := BeforeClear(s, repoId, c);
    BeforeClearRepos(s, repoId, c);
    BeforeClearAccess(s, repoId, c);
    ClearAndDelete(t, c);
    ClearedSame(t, c);
    ReposWithoutSame(s, t, Cleared(t, {c}), c);
    DeletedRepos(s, Cleared(t, {c}), c);
  }

  /** The operation deletes a resource. */
  predicate Drops(op: LinkOp) { op.DropConfig? || op.DropFlag? || op.DropImage? }

  lemma DroppingSafe(s: State, op: LinkOp, newId: Id)
    requires ReposOk(s) && Consistent(s) && FreshIds(s, op, newId) && Drops(op)
    ensures ReposOk(LinkStep(s, op, newId).state) && Consistent(LinkStep(s, op, newId).state)
  {
    match op
    case DropConfig(c) => if IsScanConfig(s, c) && IsRepo(s, s[c].parentId) { DeleteConfigSafe(s, s[c].parentId, c); }
    case DropFlag(f, removed) => if IsFlag(s, f) && IsRepo(s, s[f].parentId) { DeleteFlagSafe(s, s[f].parentId, f, removed); }
    case DropImage(i, deleted) =>
      if IsImage(s, i) && IsRepo(s, s[i].parentId) { DeleteDockerImageSafe(s, s[i].parentId, i, deleted); }
  }

  /** The operation makes a new resource, or an object that is linked to nothing. */
  predicate Stores(op: LinkOp) { op.Store? || op.NewConfig? || op.NewFlag? || op.NewImage? }

  lemma StoringSafe(s: State, op: LinkOp, newId: Id)
    requires ReposOk(s) && Consistent(s) && FreshIds(s, op, newId) && Stores(op)
    ensures ReposOk(LinkStep(s, op, newId).state) && Consistent(LinkStep(s, op, newId).state)
  {
    match op
    case Store(rec) => if Bare(rec) { StoreBareSafe(s, newId, rec); }
    case NewConfig(n, r, ps, f) => CreateConfigSafe(s, n, r, ps, f, newId);
    case NewFlag(n, r) => CreateFlagSafe(s, n, r, newId);
    case NewImage(n, r) => CreateImageSafe(s, n, r, newId);
  }

  /** Every operation, whether it succeeds or fails, keeps repos and access lists in step. */
  lemma LinkStepSafe(s: State, op: LinkOp, newId: Id)
    requires ReposOk(s) && Consistent(s) && FreshIds(s, op, newId)
    ensures ReposOk(LinkStep(s, op, newId).state) && Consistent(LinkStep(s, op, newId).state)
  {
    if Drops(op) {
      DroppingSafe(s, op, newId);
    } else if Stores(op) {
      StoringSafe(s, op, newId);
    } else {
      MildStep(s, op, newId);
      MildOk(s, LinkStep(s, op, newId).state);
    }
  }

  /** The operations that touch neither a repo nor a resource's life. */
  lemma MildStep(s: State, op: LinkOp, newId: Id)
    requires FreshIds(s, op, newId) && !Drops(op) && !Stores(op)
    ensures Mild(s, LinkStep(s, op, newId).state)
  {
    NothingDiffers(s);
    match op
    case NewEvent(c, u, live, vs) => CreateEventSafe(s, c, u, live, vs, newId);
    case NewParameter(c) => CreateParameterSame(s, c, newId);
    case SetFlag(c, f) => if IsScanConfig(s, c) { SetFlagIdOnlyFlags(s, c, f); }
    case AddImage(c, i) => if IsScanConfig(s, c) { AddDockerImageOnlyImages(s, c, i); }
    case RemImage(c, i) => if IsScanConfig(s, c) { RemDockerImageOnlyImages(s, c, i); }
    case DropEvent(e) => DeleteEventFrames(s, e);
  }

  // ----- Runs -----

  /** A run of harmless operations, from `s` to `t`; ids are handed out once. */
  ghost predicate LinkRun(s: State, ops: seq<(LinkOp, Id)>, t: State)
    decreases |ops|
  {
    if ops == [] then s == t
    else
      && FreshIds(s, ops[0].0, ops[0].1) && Harmless(s, ops[0].0)
      && LinkRun(LinkStep(s, ops[0].0, ops[0].1).state, ops[1..], t)
  }

  /**
  Over every run of harmless operations, failed ones included, the links stay in step on both sides, no config has a
  dead flag, and the parameter values of every config and event are live.
  */
  lemma {:induction false} LinkRunKeeps(s: State, ops: seq<(LinkOp, Id)>, t: State)
    requires LinksOk(s) && Consistent(s) && LinkRun(s, ops, t)
    ensures LinksOk(t) && Consistent(t)
    ensures forall c, f :: UsesFlag(t, c, f) ==> IsFlag(t, f) && FlagLists(t, f, c)
    ensures forall x, v :: Holds(t, x, v) ==> IsParameter(t, v)
    decreases |ops|
  {
    if ops != [] {
      LinkStepIff(s, ops[0].0, ops[0].1);
      LinkStepSafe(s, ops[0].0, ops[0].1);
      LinkRunKeeps(LinkStep(s, ops[0].0, ops[0].1).state, ops[1..], t);
    } else {
      forall c, f | UsesFlag(t, c, f) ensures IsFlag(t, f) && FlagLists(t, f, c) { }
    }
  }

  /** The empty store satisfies the invariant, so the runs above include every run from a fresh start. */
  lemma EmptyStoreOk()
    ensures LinksOk(map[]) && Consistent(map[])
  {
  }
}
