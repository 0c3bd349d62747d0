/** Whole runs of the access operations: the two indexes stay consistent, and the store acts as an access matrix. */
module AccessRuns {
  import opened Basics
  import opened ObjectStore
  import opened Access
  import opened AccessProofs
  import opened ClearProofs

  /** The store with the arrays of its masks, named by numbers, and the last id handed out. */
  datatype World = World(state: State, cells: map<Id, int>, lastId: Id)

  /** `cell` is the array the caller passes; the operation keeps it. */
  datatype Op =
    | NewResource(name: string, parentId: Id, kind: ResourceKind)
    | NewParty(name: string, realmId: Id, partyKind: PartyKind)
    | CreateOp(resourceId: Id, partyId: Id, mask: seq<bool>, cell: int)
    | SetOp(resourceId: Id, partyId: Id, mask: seq<bool>, cell: int)
    | AddOp(resourceId: Id, partyId: Id, mask: seq<bool>, cell: int)
    | DeleteOp(resourceId: Id, partyId: Id)
    | DeleteAllOp(resourceId: Id)

  /** No two entries hold the same array, and ids are handed out once. */
  ghost predicate WorldOk(w: World) {
    && Consistent(w.state)
    && (forall x {:trigger x in w.cells} :: x in w.cells <==> IsEntry(w.state, x))
    && (forall x, y {:trigger Shares(w.cells, x, y)} :: Shares(w.cells, x, y) ==> x == y)
    && (forall x {:trigger x in w.state} :: x in w.state ==> x <= w.lastId)
  }

  /**
  What the callers see to: the objects are live, a mask has one field for each action and is a new array, and
  dbCreateACLEntry is called only for a pair that has no entry.
  */
  ghost predicate MayDo(w: World, op: Op)
    requires WorldOk(w)
  {
    match op
    case NewResource(_, _, _) => true
    case NewParty(_, _, _) => true
    case CreateOp(r, p, m, c) => Live(w, r, p) && NewMask(w, m, c) && (p, r) !in MatrixOf(w.state)
    case SetOp(r, p, m, c) => Live(w, r, p) && NewMask(w, m, c)
    case AddOp(r, p, m, c) => Live(w, r, p) && NewMask(w, m, c)
    case DeleteOp(r, p) => Live(w, r, p)
    case DeleteAllOp(r) => IsResource(w.state, r)
  }

  predicate Live(w: World, resourceId: Id, partyId: Id) {
    IsResource(w.state, resourceId) && IsParty(w.state, partyId)
  }

  predicate NewMask(w: World, mask: seq<bool>, cell: int) {
    |mask| == MASK_LENGTH && cell !in w.cells.Values
  }

  // What each operation makes of the world; `Step` chooses among them.

  function AfterNew(w: World, rec: Record): World {
    World(w.state[w.lastId + 1 := rec], w.cells, w.lastId + 1)
  }

  function AfterCreate(w: World, r: Id, p: Id, m: seq<bool>, c: int): World {
    World(CreateEntry(w.state, r, p, m, w.lastId + 1).state, w.cells[w.lastId + 1 := c], w.lastId + 1)
  }

  function AfterSet(w: World, r: Id, p: Id, m: seq<bool>, c: int): World
    requires IsParty(w.state, p)
  {
    var f := FindEntry(w.state, w.state[p].acl, r, false);
    World(SetAccess(w.state, r, p, m, w.lastId + 1).state,
          w.cells[if f.Found? then f.id else w.lastId + 1 := c], if f.Found? then w.lastId else w.lastId + 1)
  }

  ghost function AfterAdd(w: World, r: Id, p: Id, m: seq<bool>, c: int): World
    requires IsParty(w.state, p) && Sized(w.state) && |m| == MASK_LENGTH
  {
    var f := FindEntry(w.state, w.state[p].acl, r, false);
    World(AddAccess(w.state, w.cells, r, p, m, w.lastId + 1).state,
          if f.Found? then w.cells else w.cells[w.lastId + 1 := c], if f.Found? then w.lastId else w.lastId + 1)
  }

  function AfterDelete(w: World, r: Id, p: Id): World
    requires IsResource(w.state, r) && IsParty(w.state, p)
  {
    Kept(w, DeleteAccess(w.state, r, p).state)
  }

  function AfterDeleteAll(w: World, r: Id): World
    requires IsResource(w.state, r)
  {
    Kept(w, DeleteAllAccess(w.state, r).state)
  }

  /** One operation of the store. */
  ghost function Step(w: World, op: Op): World
    requires WorldOk(w) && MayDo(w, op)
  {
    match op
    case NewResource(n, p, k) => AfterNew(w, ResourceRec(n, p, [], k))
    case NewParty(n, r, k) => AfterNew(w, PartyRec(n, r, true, [], k))
    case CreateOp(r, p, m, c) => AfterCreate(w, r, p, m, c)
    case SetOp(r, p, m, c) => AfterSet(w, r, p, m, c)
    case AddOp(r, p, m, c) => AfterAdd(w, r, p, m, c)
    case DeleteOp(r, p) => AfterDelete(w, r, p)
    case DeleteAllOp(r) => AfterDeleteAll(w, r)
  }

  function Kept(w: World, t: State): World {
    World(t, map x | x in w.cells && IsEntry(t, x) :: w.cells[x], w.lastId)
  }

  /** The same operation on the access matrix. */
  function MatrixStep(m: Matrix, op: Op): Matrix {
    match op
    case NewResource(_, _, _) => m
    case NewParty(_, _, _) => m
    case CreateOp(r, p, mask, _) => m[(p, r) := mask]
    case SetOp(r, p, mask, _) => m[(p, r) := mask]
    case AddOp(r, p, mask, _) => MatrixAdd(m, p, r, mask)
    case DeleteOp(r, p) => m - {(p, r)}
    case DeleteAllOp(r) => MatrixDeleteAll(m, r)
  }

  function MatrixDeleteAll(m: Matrix, r: Id): Matrix {
    map q | q in m && q.1 != r :: m[q]
  }

  /** deleteAccess creates no object. */
  lemma {:induction false} DeletedKeys(s: State, resourceId: Id, partyId: Id, ids: seq<Id>, i: nat)
    requires IsResource(s, resourceId) && IsParty(s, partyId) && i <= |ids|
    ensures DeleteAccessFrom(s, resourceId, partyId, ids, i).state.Keys <= s.Keys
    ensures forall x :: IsEntry(DeleteAccessFrom(s, resourceId, partyId, ids, i).state, x) ==> IsEntry(s, x)
    decreases |ids| - i
  {
    if i < |ids| {
      var o := DeleteAccessTurn(s, resourceId, partyId, ids[i], i);
      if o.ok { DeletedKeys(o.state, resourceId, partyId, ids, i + 1); }
    }
  }

  // ----- One operation -----

  lemma NewObjectLinked(s: State, x: Id, rec: Record)
    requires Linked(s) && x !in s && (rec.ResourceRec? || rec.PartyRec?) && rec.acl == []
    ensures Linked(s[x := rec]) && EntriesWithout(s, s[x := rec], {})
  {
    var t := s[x := rec];
    assert forall y, e {:trigger InAcl(t, y, e)} :: InAcl(t, y, e) <==> InAcl(s, y, e);
    forall e | IsEntry(t, e)
      ensures && IsResource(t, t[e].resourceId) && InAcl(t, t[e].resourceId, e)
              && IsParty(t, t[e].partyId) && InAcl(t, t[e].partyId, e)
    {
      assert IsEntry(s, e);
    }
    forall y | HasAcl(t, y) ensures NoDup(t[y].acl) {
      if y != x { assert HasAcl(s, y); }
    }
  }

  /** The bookkeeping beside the records: ids, and which arrays the entries hold. */
  lemma BookkeepSame(w: World, t: State, lastId: Id)
    requires WorldOk(w) && Consistent(t) && EntriesWithout(w.state, t, {})
    requires lastId >= w.lastId && forall x :: x in t ==> x in w.state || x == lastId
    ensures WorldOk(World(t, w.cells, lastId))
  {
    forall x ensures x in w.cells <==> IsEntry(t, x) { assert IsEntry(t, x) <==> IsEntry(w.state, x); }
  }

  lemma BookkeepMasks(w: World, t: State)
    requires WorldOk(w) && Consistent(t) && SameButMasks(w.state, t)
    ensures WorldOk(World(t, w.cells, w.lastId))
  {
    forall x ensures x in w.cells <==> IsEntry(t, x) { assert IsEntry(t, x) <==> IsEntry(w.state, x); }
  }

  lemma BookkeepNew(w: World, t: State, e: Id, c: int, lastId: Id)
    requires WorldOk(w) && Consistent(t) && EntriesDifferAt(w.state, t, e) && c !in w.cells.Values
    requires w.lastId <= lastId && e <= lastId && forall x :: x in t ==> x in w.state || x == e
    ensures WorldOk(World(t, w.cells[e := c], lastId))
  {
    NewCellUnshared(w.cells, e, c);
    forall x ensures x in w.cells[e := c] <==> IsEntry(t, x) {
      if x != e { assert IsEntry(t, x) <==> IsEntry(w.state, x); }
    }
  }

  lemma NewObjectKeeps(w: World, rec: Record)
    requires WorldOk(w) && (rec.ResourceRec? || rec.PartyRec?) && rec.acl == []
    ensures WorldOk(AfterNew(w, rec)) && MatrixOf(AfterNew(w, rec).state) == MatrixOf(w.state)
  {
    assert AfterNew(w, rec) == World(w.state[w.lastId + 1 := rec], w.cells, w.lastId + 1);
    NewObjectOk(w, rec);
  }

  lemma NewObjectConsistent(s: State, x: Id, rec: Record)
    requires Consistent(s) && x !in s && (rec.ResourceRec? || rec.PartyRec?) && rec.acl == []
    ensures Consistent(s[x := rec]) && EntriesWithout(s, s[x := rec], {})
    ensures MatrixOf(s[x := rec]) == MatrixOf(s)
  {
    NewObjectLinked(s, x, rec);
    SameEntriesMatrix(s, s[x := rec]);
  }

  lemma NewObjectOk(w: World, rec: Record)
    requires WorldOk(w) && (rec.ResourceRec? || rec.PartyRec?) && rec.acl == []
    ensures var t := w.state[w.lastId + 1 := rec];
      WorldOk(World(t, w.cells, w.lastId + 1)) && MatrixOf(t) == MatrixOf(w.state)
  {
    NewObjectConsistent(w.state, w.lastId + 1, rec);
    BookkeepSame(w, w.state[w.lastId + 1 := rec], w.lastId + 1);
  }

  /** A new array at one entry is shared with no other. */
  lemma NewCellUnshared(cells: map<Id, int>, e: Id, c: int)
    requires forall x, y {:trigger Shares(cells, x, y)} :: Shares(cells, x, y) ==> x == y
    requires c !in cells.Values
    ensures forall x, y {:trigger Shares(cells[e := c], x, y)} :: Shares(cells[e := c], x, y) ==> x == y
  {
    var d := cells[e := c];
    forall x, y | Shares(d, x, y) ensures x == y {
      if x != e && y != e { assert Shares(cells, x, y); }
    }
  }

  lemma CreateKeeps(w: World, r: Id, p: Id, m: seq<bool>, c: int)
    requires WorldOk(w) && Live(w, r, p) && NewMask(w, m, c) && (p, r) !in MatrixOf(w.state)
    ensures WorldOk(AfterCreate(w, r, p, m, c))
    ensures MatrixOf(AfterCreate(w, r, p, m, c).state) == MatrixOf(w.state)[(p, r) := m]
  {
    var t := CreateEntry(w.state, r, p, m, w.lastId + 1).state;
    assert AfterCreate(w, r, p, m, c) == World(t, w.cells[w.lastId + 1 := c], w.lastId + 1);
    CreatedOk(w, r, p, m, c);
  }

  lemma CreatedOk(w: World, r: Id, p: Id, m: seq<bool>, c: int)
    requires WorldOk(w) && Live(w, r, p) && NewMask(w, m, c) && (p, r) !in MatrixOf(w.state)
    ensures var t := CreateEntry(w.state, r, p, m, w.lastId + 1).state;
      WorldOk(World(t, w.cells[w.lastId + 1 := c], w.lastId + 1)) && MatrixOf(t) == MatrixOf(w.state)[(p, r) := m]
  {
    CreateEntryConsistentIff(w.state, r, p, m, w.lastId + 1);
    CreateEntryKeepsLinked(w.state, r, p, m, w.lastId + 1);
    BookkeepNew(w, CreateEntry(w.state, r, p, m, w.lastId + 1).state, w.lastId + 1, c, w.lastId + 1);
  }

  lemma SetFoundKeeps(w: World, e: Id, m: seq<bool>, c: int)
    requires WorldOk(w) && IsEntry(w.state, e) && NewMask(w, m, c)
    ensures var t := w.state[e := w.state[e].(mask := m)];
      && WorldOk(World(t, w.cells[e := c], w.lastId))
      && MatrixOf(t) == MatrixOf(w.state)[(w.state[e].partyId, w.state[e].resourceId) := m]
  {
    NewMaskConsistent(w.state, e, m);
    assert e in w.state;
    BookkeepNew(w, w.state[e := w.state[e].(mask := m)], e, c, w.lastId);
  }

  lemma OrFoundOk(w: World, e: Id, m: seq<bool>)
    requires WorldOk(w) && IsEntry(w.state, e) && |m| == MASK_LENGTH
    ensures WorldOk(World(OrShared(w.state, w.cells, e, m), w.cells, w.lastId))
    ensures MatrixOf(OrShared(w.state, w.cells, e, m))
         == MatrixOf(w.state)[(w.state[e].partyId, w.state[e].resourceId) := Or(w.state[e].mask, m)]
  {
    OrSharedConsistent(w.state, w.cells, e, m);
    BookkeepMasks(w, OrShared(w.state, w.cells, e, m));
    OrSharedAlone(w.state, w.cells, e, m);
  }

  lemma AddFoundKeeps(w: World, e: Id, m: seq<bool>)
    requires WorldOk(w) && IsEntry(w.state, e) && |m| == MASK_LENGTH
    ensures IsParty(w.state, w.state[e].partyId)
    ensures var o := AddAccess(w.state, w.cells, w.state[e].resourceId, w.state[e].partyId, m, w.lastId + 1);
      && WorldOk(World(o.state, w.cells, w.lastId))
      && MatrixOf(o.state)
         == MatrixOf(w.state)[(w.state[e].partyId, w.state[e].resourceId) := Or(w.state[e].mask, m)]
  {
    FindEntryIs(w.state, e);
    OrFoundOk(w, e, m);
  }

  /** The search tells whether the matrix has the pair. */
  lemma SearchAgrees(w: World, r: Id, p: Id)
    requires WorldOk(w) && Live(w, r, p)
    ensures match FindEntry(w.state, w.state[p].acl, r, false)
            case Found(e) => Joins(w.state, e, p, r) && (p, r) in MatrixOf(w.state) && MatrixOf(w.state)[(p, r)] == w.state[e].mask
            case Absent => (p, r) !in MatrixOf(w.state)
            case Failed => false
  {
    FindEntryExact(w.state, p, r);
    MatrixFacts(w.state);
  }

  lemma SetKeeps(w: World, r: Id, p: Id, m: seq<bool>, c: int)
    requires WorldOk(w) && Live(w, r, p) && NewMask(w, m, c)
    ensures WorldOk(AfterSet(w, r, p, m, c))
    ensures MatrixOf(AfterSet(w, r, p, m, c).state) == MatrixOf(w.state)[(p, r) := m]
  {
    SearchAgrees(w, r, p);
    match FindEntry(w.state, w.state[p].acl, r, false)
    case Found(e) => SetFoundKeeps(w, e, m, c);
    case Absent => CreateKeeps(w, r, p, m, c);
  }

  lemma AddKeeps(w: World, r: Id, p: Id, m: seq<bool>, c: int)
    requires WorldOk(w) && Live(w, r, p) && NewMask(w, m, c)
    ensures WorldOk(AfterAdd(w, r, p, m, c))
    ensures MatrixOf(AfterAdd(w, r, p, m, c).state) == MatrixAdd(MatrixOf(w.state), p, r, m)
  {
    SearchAgrees(w, r, p);
    match FindEntry(w.state, w.state[p].acl, r, false)
    case Found(e) => AddFoundKeeps(w, e, m);
    case Absent => CreateKeeps(w, r, p, m, c);
  }

  lemma KeptOk(w: World, t: State)
    requires WorldOk(w) && Consistent(t) && t.Keys <= w.state.Keys
    requires forall x {:trigger IsEntry(t, x)} :: IsEntry(t, x) ==> IsEntry(w.state, x)
    ensures WorldOk(Kept(w, t))
  {
    var k := Kept(w, t);
    forall x, y | Shares(k.cells, x, y) ensures x == y { assert Shares(w.cells, x, y); }
    forall x ensures x in k.cells <==> IsEntry(t, x) { }
  }

  lemma DeleteKeeps(w: World, r: Id, p: Id)
    requires WorldOk(w) && Live(w, r, p)
    ensures WorldOk(AfterDelete(w, r, p))
    ensures MatrixOf(AfterDelete(w, r, p).state) == MatrixOf(w.state) - {(p, r)}
  {
    DeleteAccessOnMatrix(w.state, r, p);
    DeletedKeys(w.state, r, p, w.state[r].acl, 0);
    KeptOk(w, DeleteAccess(w.state, r, p).state);
  }

  lemma ClearedMatrix(s: State, r: Id)
    requires Consistent(s)
    ensures Consistent(Cleared(s, {r})) && MatrixOf(Cleared(s, {r})) == MatrixDeleteAll(MatrixOf(s), r)
  {
    ClearedConsistent(s, {r});
    MatrixWithout(MatrixOf(s), MatrixOf(Cleared(s, {r})), r);
  }

  lemma MatrixWithout(m: Matrix, t: Matrix, r: Id)
    requires forall p, q :: (p, q) in t <==> (p, q) in m && q !in {r}
    requires forall p, q :: (p, q) in t ==> t[(p, q)] == m[(p, q)]
    ensures t == MatrixDeleteAll(m, r)
  {
    var d := MatrixDeleteAll(m, r);
    forall x | x in t ensures x in d && d[x] == t[x] {
      var (p, q) := x;
      assert (p, q) in t && (p, q) in m && q !in {r};
    }
    forall x | x in d ensures x in t {
      var (p, q) := x;
      assert (p, q) in m && q !in {r};
    }
  }

  lemma ClearedKept(w: World, r: Id)
    requires WorldOk(w)
    ensures WorldOk(Kept(w, Cleared(w.state, {r})))
  {
    ClearedLinked(w.state, {r});
    ClearedConsistent(w.state, {r});
    KeptOk(w, Cleared(w.state, {r}));
  }

  lemma DeleteAllKeeps(w: World, r: Id)
    requires WorldOk(w) && IsResource(w.state, r)
    ensures WorldOk(AfterDeleteAll(w, r))
    ensures MatrixOf(AfterDeleteAll(w, r).state) == MatrixDeleteAll(MatrixOf(w.state), r)
  {
    DeleteAllAccessClears(w.state, r);
    ClearedMatrix(w.state, r);
    ClearedKept(w, r);
  }

  /** One operation keeps the store consistent and does to the matrix what its name says. */
  lemma StepKeeps(w: World, op: Op)
    requires WorldOk(w) && MayDo(w, op)
    ensures WorldOk(Step(w, op))
    ensures MatrixOf(Step(w, op).state) == MatrixStep(MatrixOf(w.state), op)
  {
    match op
    case NewResource(n, p, k) => NewObjectKeeps(w, ResourceRec(n, p, [], k));
    case NewParty(n, r, k) => NewObjectKeeps(w, PartyRec(n, r, true, [], k));
    case CreateOp(r, p, m, c) => CreateKeeps(w, r, p, m, c);
    case SetOp(r, p, m, c) => SetKeeps(w, r, p, m, c);
    case AddOp(r, p, m, c) => AddKeeps(w, r, p, m, c);
    case DeleteOp(r, p) => DeleteKeeps(w, r, p);
    case DeleteAllOp(r) => DeleteAllKeeps(w, r);
  }

  // ----- Runs -----

  ghost predicate MayRun(w: World, ops: seq<Op>)
    requires WorldOk(w)
    decreases |ops|
  {
    ops == [] || (MayDo(w, ops[0]) && (StepKeeps(w, ops[0]); MayRun(Step(w, ops[0]), ops[1..])))
  }

  ghost function Run(w: World, ops: seq<Op>): World
    requires WorldOk(w) && MayRun(w, ops)
    decreases |ops|
  {
    if ops == [] then w else StepKeeps(w, ops[0]); Run(Step(w, ops[0]), ops[1..])
  }

  function MatrixRun(m: Matrix, ops: seq<Op>): Matrix
    decreases |ops|
  {
    if ops == [] then m else MatrixRun(MatrixStep(m, ops[0]), ops[1..])
  }

  /**
  Over every run, each live entry is once in its resource's list and once in its party's list, the lists hold
  nothing else, a pair has at most one entry, and the permissions are those of the access matrix after the same
  operations.
  */
  lemma {:induction false} RunRefinesMatrix(w: World, ops: seq<Op>)
    requires WorldOk(w) && MayRun(w, ops)
    ensures WorldOk(Run(w, ops))
    ensures MatrixOf(Run(w, ops).state) == MatrixRun(MatrixOf(w.state), ops)
    decreases |ops|
  {
    if ops != [] {
      StepKeeps(w, ops[0]);
      RunRefinesMatrix(Step(w, ops[0]), ops[1..]);
    }
  }

  /** A store with no objects is a start. */
  lemma EmptyWorldOk()
    ensures WorldOk(World(map[], map[], 0)) && MatrixOf(map[]) == map[]
  {
  }
}
