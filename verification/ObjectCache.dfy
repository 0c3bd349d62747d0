/**
The transaction-scope cache in front of the in-memory object map. A client looks an object up in its cache first, and
writes to the cache and to the map together. Both maps are keyed by text: the object id, and in one place the login
name of a user.
*/
module ObjectCache {
  import opened Basics

  /** An object as the cache sees it: its id and, for a user, the login name. */
  datatype Obj = Obj(id: string, userId: Option<string>)

  /** The caches of one client over the maps that all clients share. */
  datatype Store = Store(objectsCache: map<string, Obj>, usersCache: map<string, Obj>,
                         allObjects: map<string, Obj>, allUserIds: map<string, string>)

  // ----- The operations -----

  /** getPersistentObject */
  function Get(s: Store, id: string): (Store, Result<Obj>) {
    if id == "" then (s, Err)
    else if id in s.objectsCache then (s, Ok(s.objectsCache[id]))
    else if id in s.allObjects then (s.(objectsCache := s.objectsCache[id := s.allObjects[id]]), Ok(s.allObjects[id]))
    else (s, Err)
  }

  /** updateObject */
  function Update(s: Store, o: Obj): Store {
    s.(objectsCache := s.objectsCache[o.id := o], allObjects := s.allObjects[o.id := o])
  }

  /** deleteObject; a nil map entry is an absent one. */
  function Delete(s: Store, o: Obj): Store {
    s.(objectsCache := s.objectsCache - {o.id}, allObjects := s.allObjects - {o.id})
  }

  /** addUser: the caches are filled before the login name is checked. */
  function AddUser(s: Store, u: Obj): (Store, bool)
    requires u.userId.Some?
  {
    if u.id in s.usersCache then (s, false)
    else
      var t := s.(usersCache := s.usersCache[u.id := u], objectsCache := s.objectsCache[u.id := u]);
      if u.userId.value in t.allUserIds then (t, false)
      else (t.(allUserIds := t.allUserIds[u.userId.value := u.id], allObjects := t.allObjects[u.id := u]), true)
  }

  /** dbGetUserByUserId: a user found in the map is put in both caches under its login name. */
  function GetUserByUserId(s: Store, userId: string): (Store, Result<Option<Obj>>) {
    if userId in s.usersCache then (s, Ok(Some(s.usersCache[userId])))
    else if userId !in s.allUserIds || s.allUserIds[userId] == "" then (s, Ok(None))
    else
      var (t, r) := Get(s, s.allUserIds[userId]);
      if r.Err? || r.value.userId.None? then (t, Err)
      else (t.(usersCache := t.usersCache[userId := r.value], objectsCache := t.objectsCache[userId := r.value]), Ok(Some(r.value)))
  }

  // ----- The lookup without a cache -----

  function Plain(s: Store, id: string): Result<Obj> {
    if id != "" && id in s.allObjects then Ok(s.allObjects[id]) else Err
  }

  /** The cache gives the answer that the map gives. */
  ghost predicate Agrees(s: Store, id: string) {
    Get(s, id).1 == Plain(s, id)
  }

  /** Objects are stored under their own ids. */
  ghost predicate OwnIds(s: Store) {
    forall k :: k in s.allObjects ==> s.allObjects[k].id == k
  }

  /** What is cached under a key other than a login name is what the map holds. */
  ghost predicate CacheOk(s: Store) {
    OwnIds(s) && forall k :: k in s.objectsCache && k !in s.allUserIds ==> k in s.allObjects && s.allObjects[k] == s.objectsCache[k]
  }

  /** Everything cached is what the map holds. */
  ghost predicate Coherent(s: Store) {
    forall k :: k in s.objectsCache ==> k in s.allObjects && s.allObjects[k] == s.objectsCache[k]
  }

  /** A coherent cache is invisible, and it is exactly the coherent caches that are. */
  lemma CoherentIffAgrees(s: Store)
    requires "" !in s.objectsCache
    ensures Coherent(s) <==> forall id :: Agrees(s, id)
  {
    if forall id :: Agrees(s, id) {
      forall k | k in s.objectsCache ensures k in s.allObjects && s.allObjects[k] == s.objectsCache[k] {
        assert Agrees(s, k);
      }
    }
  }

  /** addUser leaves a coherent cache exactly when it succeeds or stops before the caches are filled. */
  lemma AddUserCoherentIff(s: Store, u: Obj)
    requires Coherent(s) && u.userId.Some? && u.id !in s.allObjects
    ensures Coherent(AddUser(s, u).0) <==> AddUser(s, u).1 || u.id in s.usersCache
  {
    var t := AddUser(s, u).0;
    if !AddUser(s, u).1 && u.id !in s.usersCache {
      assert u.id in t.objectsCache;
    }
  }

  /**
  Looking a live user up by login name leaves a coherent cache exactly when it was answered from the cache or the login
  name is the user's object id: otherwise the user is now cached under a key that is not its id.
  */
  lemma GetUserCoherentIff(s: Store, userId: string)
    requires Coherent(s) && OwnIds(s) && GetUserByUserId(s, userId).1.Ok?
    ensures Coherent(GetUserByUserId(s, userId).0) <==>
      userId in s.usersCache || userId !in s.allUserIds || s.allUserIds[userId] == "" || s.allUserIds[userId] == userId
  {
    var (t, r) := GetUserByUserId(s, userId);
    if userId !in s.usersCache && userId in s.allUserIds && s.allUserIds[userId] != "" {
      var objId := s.allUserIds[userId];
      var u := s.allObjects[objId];
      assert t.objectsCache == s.objectsCache[objId := u][userId := u];
      if objId != userId { assert userId in t.objectsCache && t.objectsCache[userId] == u && u.id == objId; }
    }
  }

  // ----- Runs -----

  datatype Op =
    | GetOp(id: string)
    | UpdateOp(o: Obj)
    | DeleteOp(o: Obj)
    | AddUserOp(u: Obj)
    | GetUserOp(userId: string)

  /** A new user has a new id, and dbCreateUser has seen that nobody has the login name. */
  predicate MayDo(s: Store, op: Op) {
    op.AddUserOp? ==> op.u.userId.Some? && op.u.userId.value !in s.allUserIds && op.u.id !in s.allUserIds
  }

  function Step(s: Store, op: Op): Store
    requires MayDo(s, op)
  {
    match op
    case GetOp(id) => Get(s, id).0
    case UpdateOp(o) => Update(s, o)
    case DeleteOp(o) => Delete(s, o)
    case AddUserOp(u) => AddUser(s, u).0
    case GetUserOp(userId) => GetUserByUserId(s, userId).0
  }

  ghost predicate Run(s: Store, ops: seq<Op>, t: Store)
    decreases |ops|
  {
    if ops == [] then s == t else MayDo(s, ops[0]) && Run(Step(s, ops[0]), ops[1..], t)
  }

  lemma StepKeeps(s: Store, op: Op)
    requires CacheOk(s) && MayDo(s, op)
    ensures CacheOk(Step(s, op))
  {
  }

  /**
  Over every run the cache is invisible for every id that is no login name, whatever the operations: a lookup then gives
  what a client without a cache would get.
  */
  lemma {:induction false} RunCacheInvisible(s: Store, ops: seq<Op>, t: Store, id: string)
    requires CacheOk(s) && Run(s, ops, t) && id !in t.allUserIds
    ensures CacheOk(t) && Agrees(t, id)
    decreases |ops|
  {
    if ops != [] {
      StepKeeps(s, ops[0]);
      RunCacheInvisible(Step(s, ops[0]), ops[1..], t, id);
    }
  }

  /** The operation writes the object of that id, or deletes it. */
  predicate Writes(op: Op, id: string) {
    match op
    case UpdateOp(o) => o.id == id
    case DeleteOp(o) => o.id == id
    case AddUserOp(u) => u.id == id
    case _ => false
  }

  lemma {:induction false} UnwrittenStays(s: Store, ops: seq<Op>, t: Store, id: string)
    requires Run(s, ops, t) && forall k :: 0 <= k < |ops| ==> !Writes(ops[k], id)
    ensures Plain(t, id) == Plain(s, id)
    decreases |ops|
  {
    if ops != [] {
      forall k | 0 <= k < |ops| - 1 ensures !Writes(ops[1..][k], id) { assert ops[1..][k] == ops[k + 1]; }
      UnwrittenStays(Step(s, ops[0]), ops[1..], t, id);
    }
  }

  /**
  A lookup finds what was written last, however many operations on other objects lie between, and nothing once the
  object was deleted, if its id is no login name.
  */
  lemma WriteThenRead(s: Store, o: Obj, ops: seq<Op>, t: Store)
    requires CacheOk(s) && o.id != "" && o.id !in t.allUserIds
    requires forall k :: 0 <= k < |ops| ==> !Writes(ops[k], o.id)
    ensures Run(Update(s, o), ops, t) ==> Get(t, o.id).1 == Ok(o)
    ensures Run(Delete(s, o), ops, t) ==> Get(t, o.id).1 == Err
  {
    if Run(Update(s, o), ops, t) {
      StepKeeps(s, UpdateOp(o));
      UnwrittenStays(Update(s, o), ops, t, o.id);
      RunCacheInvisible(Update(s, o), ops, t, o.id);
    }
    if Run(Delete(s, o), ops, t) {
      StepKeeps(s, DeleteOp(o));
      UnwrittenStays(Delete(s, o), ops, t, o.id);
      RunCacheInvisible(Delete(s, o), ops, t, o.id);
    }
  }

  // ----- Deleted users -----

  /** The operation puts a user into the user cache under this name: it looked the name up, or added a user of that id. */
  predicate CachesUser(s: Store, op: Op, name: string) {
    match op
    case GetUserOp(userId) => userId == name && GetUserByUserId(s, userId).1.Ok? && GetUserByUserId(s, userId).1.value.Some?
    case AddUserOp(u) => u.id == name
    case _ => false
  }

  /** Some operation of the run does. */
  ghost predicate RunCachesUser(s: Store, ops: seq<Op>, t: Store, name: string)
    requires Run(s, ops, t)
    decreases |ops|
  {
    ops != [] && (CachesUser(s, ops[0], name) || RunCachesUser(Step(s, ops[0]), ops[1..], t, name))
  }

  lemma CachedIff(s: Store, op: Op, name: string)
    requires MayDo(s, op)
    ensures name in Step(s, op).usersCache <==> name in s.usersCache || CachesUser(s, op, name)
  {
  }

  lemma {:induction false} UserCachedIff(s: Store, ops: seq<Op>, t: Store, name: string)
    requires Run(s, ops, t)
    ensures name in t.usersCache <==> name in s.usersCache || RunCachesUser(s, ops, t, name)
    decreases |ops|
  {
    if ops != [] {
      CachedIff(s, ops[0], name);
      UserCachedIff(Step(s, ops[0]), ops[1..], t, name);
    }
  }

  /**
  Nothing takes a user out of the user cache. So in a client that started with empty caches, a user that has been
  deleted is still found by login name exactly when it was found by that name before, or a user was added whose object
  id is that name.
  */
  lemma DeletedUserFoundIff(s: Store, ops: seq<Op>, t: Store, u: Obj)
    requires s.usersCache == map[] && Run(s, ops, t)
    requires u.userId.Some? && u.userId.value in t.allUserIds && t.allUserIds[u.userId.value] == u.id
    ensures var r := GetUserByUserId(Delete(t, u), u.userId.value).1;
      (r.Ok? && r.value.Some?) <==> RunCachesUser(s, ops, t, u.userId.value)
  {
    UserCachedIff(s, ops, t, u.userId.value);
  }

  /** An id that is a login name can be answered wrongly: here no object has the id, but the lookup finds a user. */
  lemma LoginNameAnswered()
    ensures exists s: Store, userId: string ::
      Coherent(s) && OwnIds(s) && Plain(s, userId) == Err && Get(GetUserByUserId(s, userId).0, userId).1.Ok?
  {
    var u := Obj("7", Some("ann"));
    var s := Store(map[], map[], map["7" := u], map["ann" := "7"]);
    assert "ann" !in s.allObjects && Get(s, "7").1 == Ok(u);
    assert Plain(s, "ann") == Err && Get(GetUserByUserId(s, "ann").0, "ann").1 == Ok(u);
  }

  // ----- The client -----

  class InMemClientCache {
    var objectsCache: map<string, Obj>
    var usersCache: map<string, Obj>
    var allObjects: map<string, Obj>
    var allUserIds: map<string, string>

    function View(): Store
      reads this
    {
      Store(objectsCache, usersCache, allObjects, allUserIds)
    }

    /** commit, abort and the constructor of a client start with empty caches over the same maps. */
    method ResetTransactionCache()
      modifies this`objectsCache, this`usersCache
      ensures View() == old(View()).(objectsCache := map[], usersCache := map[])
      ensures OwnIds(View()) ==> CacheOk(View()) && Coherent(View())
    {
      objectsCache, usersCache := map[], map[];
    }

    method GetPersistentObject(id: string) returns (r: Result<Obj>)
      modifies this`objectsCache
      ensures (View(), r) == Get(old(View()), id)
      ensures Agrees(old(View()), id) ==> r == Plain(old(View()), id)
    {
      if id == "" { return Err; }
      if id in objectsCache { return Ok(objectsCache[id]); }
      if id !in allObjects { return Err; }
      var obj := allObjects[id];
      objectsCache := objectsCache[id := obj];
      r := Ok(obj);
    }

    method UpdateObject(o: Obj)
      modifies this`objectsCache, this`allObjects
      ensures View() == Update(old(View()), o)
    {
      objectsCache := objectsCache[o.id := o];
      allObjects := allObjects[o.id := o];
    }

    method DeleteObject(o: Obj)
      modifies this`objectsCache, this`allObjects
      ensures View() == Delete(old(View()), o)
    {
      if o.id in objectsCache { objectsCache := objectsCache - {o.id}; }
      allObjects := allObjects - {o.id};
    }

    method DoAddUser(u: Obj) returns (ok: bool)
      requires u.userId.Some?
      modifies this
      ensures (View(), ok) == AddUser(old(View()), u)
    {
      if u.id in usersCache { return false; }
      usersCache := usersCache[u.id := u];
      objectsCache := objectsCache[u.id := u];
      if u.userId.value in allUserIds { return false; }
      allUserIds := allUserIds[u.userId.value := u.id];
      allObjects := allObjects[u.id := u];
      ok := true;
    }

    method DbGetUserByUserId(userId: string) returns (r: Result<Option<Obj>>)
      modifies this`objectsCache, this`usersCache
      ensures (View(), r) == GetUserByUserId(old(View()), userId)
    {
      if userId in usersCache { return Ok(Some(usersCache[userId])); }
      if userId !in allUserIds || allUserIds[userId] == "" { return Ok(None); }
      var user := GetPersistentObject(allUserIds[userId]);
      if user.Err? || user.value.userId.None? { return Err; }
      usersCache := usersCache[userId := user.value];
      objectsCache := objectsCache[userId := user.value];
      r := Ok(Some(user.value));
    }
  }
}
