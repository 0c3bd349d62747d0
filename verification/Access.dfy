/**
Access control lists as values: what setAccess, addAccess, deleteAccess, deleteAllAccessToResource and
dbCreateACLEntry make of the records in the store.

An ACL entry is indexed twice, in the list of its resource and in the list of its party. The operations
update the two lists, the entry and the store one after the other; an `Outcome` that is not ok is the state
the code leaves behind when it returns an error half way.
*/
module Access {
  import opened Basics
  import opened ObjectStore

  datatype Outcome = Outcome(state: State, ok: bool)

  // ----- The operations, step by step -----

  /** The result of looking for a party's entry: an entry, none, or the error of the last lookup. */
  datatype Search = Found(id: Id) | Absent | Failed

  /** party.getACLEntryForResourceId: an entry that cannot be read is skipped, but the loop keeps its error. */
  function FindEntry(s: State, ids: seq<Id>, resourceId: Id, lastFailed: bool): Search {
    if ids == [] then if lastFailed then Failed else Absent
    else if !IsEntry(s, ids[0]) then FindEntry(s, ids[1..], resourceId, true)
    else if s[ids[0]].resourceId == resourceId then Found(ids[0])
    else FindEntry(s, ids[1..], resourceId, false)
  }

  /** dbCreateACLEntry: `newId` is the id the counter hands out. */
  function CreateEntry(s: State, resourceId: Id, partyId: Id, mask: seq<bool>, newId: Id): Outcome {
    if !IsResource(s, resourceId) || !IsParty(s, partyId) then Outcome(s, false)
    else
      var s1 := s[newId := EntryRec(resourceId, partyId, mask)];
      var s2 := s1[resourceId := WithAcl(s[resourceId], s[resourceId].acl + [newId])];
      Outcome(s2[partyId := WithAcl(s[partyId], s[partyId].acl + [newId])], true)
  }

  function SetAccess(s: State, resourceId: Id, partyId: Id, mask: seq<bool>, newId: Id): Outcome
    requires IsParty(s, partyId)
  {
    match FindEntry(s, s[partyId].acl, resourceId, false)
    case Failed => Outcome(s, false)
    case Absent => CreateEntry(s, resourceId, partyId, mask, newId)
    case Found(e) => if IsEntry(s, e) then Outcome(s[e := s[e].(mask := mask)], true) else Outcome(s, false)
  }

  /** The union of two masks, over the length of the first. */
  function Or(a: seq<bool>, b: seq<bool>): (r: seq<bool>)
    requires |a| <= |b|
    ensures |r| == |a| && forall k :: 0 <= k < |a| ==> r[k] == (a[k] || b[k])
  {
    seq(|a|, k requires 0 <= k < |a| => a[k] || b[k])
  }

  /**
  What editing the mask array of entry `e` in place does: every entry whose mask is that same array changes.
  `cells` says which array each entry holds.
  */
  function OrShared<Cell(==)>(s: State, cells: map<Id, Cell>, e: Id, mask: seq<bool>): State
    requires Sized(s) && |mask| == MASK_LENGTH
  {
    map x | x in s ::
      if IsEntry(s, x) && Shares(cells, x, e) then s[x].(mask := Or(s[x].mask, mask)) else s[x]
  }

  predicate Shares<Cell(==)>(cells: map<Id, Cell>, x: Id, y: Id) {
    x in cells && y in cells && cells[x] == cells[y]
  }

  /** Every mask has one position for each kind of action. */
  ghost predicate Sized(s: State) {
    forall e {:trigger IsEntry(s, e)} :: IsEntry(s, e) ==> |s[e].mask| == MASK_LENGTH
  }

  function AddAccess<Cell(==)>(s: State, cells: map<Id, Cell>, resourceId: Id, partyId: Id,
                               mask: seq<bool>, newId: Id): Outcome
    requires IsParty(s, partyId) && Sized(s) && |mask| == MASK_LENGTH
  {
    match FindEntry(s, s[partyId].acl, resourceId, false)
    case Failed => Outcome(s, false)
    case Absent => CreateEntry(s, resourceId, partyId, mask, newId)
    case Found(e) => Outcome(OrShared(s, cells, e, mask), true)
  }

  /** Take an entry out of its party's list and out of the store. */
  function Detach(s: State, partyId: Id, entryId: Id): (r: State)
    requires IsParty(s, partyId) && IsEntry(s, entryId)
    ensures r.Keys == s.Keys - {entryId} && IsParty(r, partyId)
    ensures forall x {:trigger IsResource(s, x)} :: IsResource(s, x) ==> IsResource(r, x) && r[x] == s[x]
  {
    (s - {entryId})[partyId := WithAcl(s[partyId], RemoveFrom(entryId, s[partyId].acl))]
  }

  /**
  One turn of the loop of deleteAccess, for the id `e` at position `i` of the copy of the resource's list. A
  matching entry is removed from that position of the list as it is now; a position past its end is a failure.
  */
  function DeleteAccessTurn(s: State, resourceId: Id, partyId: Id, e: Id, i: nat): (o: Outcome)
    requires IsResource(s, resourceId) && IsParty(s, partyId)
    ensures IsResource(o.state, resourceId) && IsParty(o.state, partyId)
  {
    if !IsEntry(s, e) then Outcome(s, false)
    else if s[e].partyId != partyId then Outcome(s, true)
    else if s[e].resourceId != resourceId then Outcome(s, false)
    else
      var t := Detach(s, partyId, e);
      if i >= |t[resourceId].acl| then Outcome(t, false)
      else Outcome(t[resourceId := WithAcl(t[resourceId], RemoveAt(i, t[resourceId].acl))], true)
  }

  /** The loop of deleteAccess over the copy `ids`, from position `i`. */
  function DeleteAccessFrom(s: State, resourceId: Id, partyId: Id, ids: seq<Id>, i: nat): Outcome
    requires IsResource(s, resourceId) && IsParty(s, partyId) && i <= |ids|
    decreases |ids| - i
  {
    if i == |ids| then Outcome(s, true)
    else
      var o := DeleteAccessTurn(s, resourceId, partyId, ids[i], i);
      if !o.ok then o else DeleteAccessFrom(o.state, resourceId, partyId, ids, i + 1)
  }

  function DeleteAccess(s: State, resourceId: Id, partyId: Id): Outcome
    requires IsResource(s, resourceId) && IsParty(s, partyId)
  {
    DeleteAccessFrom(s, resourceId, partyId, s[resourceId].acl, 0)
  }

  /** The loop of deleteAllAccessToResource. */
  function DetachAll(s: State, ids: seq<Id>): (o: Outcome)
    ensures forall x {:trigger IsResource(s, x)} :: IsResource(s, x) ==> IsResource(o.state, x) && o.state[x] == s[x]
  {
    if ids == [] then Outcome(s, true)
    else if !IsEntry(s, ids[0]) || !IsParty(s, s[ids[0]].partyId) then Outcome(s, false)
    else DetachAll(Detach(s, s[ids[0]].partyId, ids[0]), ids[1..])
  }

  function DeleteAllAccess(s: State, resourceId: Id): (o: Outcome)
    requires IsResource(s, resourceId)
    ensures forall x {:trigger IsResource(s, x)} :: IsResource(s, x) ==>
      IsResource(o.state, x) && o.state[x].resourceKind == s[x].resourceKind
  {
    var o := DetachAll(s, s[resourceId].acl);
    if o.ok then Outcome(o.state[resourceId := WithAcl(o.state[resourceId], [])], true) else o
  }

  // ----- What the two indexes promise -----

  /** The object has a list of ACL entry ids. */
  predicate HasAcl(s: State, x: Id) { IsResource(s, x) || IsParty(s, x) }

  /** `e` is in the list of `x`. */
  predicate InAcl(s: State, x: Id, e: Id) { HasAcl(s, x) && e in s[x].acl }

  /** Each entry is in the list of its resource and of its party, exactly once, and no list holds anything else. */
  ghost predicate Linked(s: State) {
    && (forall e {:trigger IsEntry(s, e)} :: IsEntry(s, e) ==>
          && IsResource(s, s[e].resourceId) && InAcl(s, s[e].resourceId, e)
          && IsParty(s, s[e].partyId) && InAcl(s, s[e].partyId, e))
    && (forall x, e {:trigger InAcl(s, x, e)} :: InAcl(s, x, e) ==>
          IsEntry(s, e) && x == if IsResource(s, x) then s[e].resourceId else s[e].partyId)
    && (forall x {:trigger HasAcl(s, x)} :: HasAcl(s, x) ==> NoDup(s[x].acl))
  }

  /** Entry `e` joins the party and the resource. */
  predicate Joins(s: State, e: Id, partyId: Id, resourceId: Id) {
    IsEntry(s, e) && s[e].partyId == partyId && s[e].resourceId == resourceId
  }

  ghost predicate AtMostOneEntry(s: State, partyId: Id, resourceId: Id) {
    forall a, b :: Joins(s, a, partyId, resourceId) && Joins(s, b, partyId, resourceId) ==> a == b
  }

  /** Every (party, resource) pair has at most one entry. */
  ghost predicate OneEntryPerPair(s: State) {
    forall a, b {:trigger IsEntry(s, a), IsEntry(s, b)} :: IsEntry(s, a) && IsEntry(s, b) && SamePair(s[a], s[b]) ==> a == b
  }

  predicate SamePair(a: Record, b: Record)
    requires a.EntryRec? && b.EntryRec?
  {
    a.resourceId == b.resourceId && a.partyId == b.partyId
  }

  /** The invariant of the access operations. */
  ghost predicate Consistent(s: State) {
    Linked(s) && OneEntryPerPair(s) && Sized(s)
  }

  // ----- The simple form: an access matrix -----

  type Matrix = map<(Id, Id), seq<bool>>

  /** The permissions as one map from (party, resource) to a mask, without ids or lists. */
  ghost function MatrixOf(s: State): Matrix
    requires OneEntryPerPair(s)
  {
    map e | e in s && IsEntry(s, e) :: (s[e].partyId, s[e].resourceId) := s[e].mask
  }

  /** The matrix after addAccess: the union of the pair's old mask, if it had one, and the new mask. */
  function MatrixAdd(m: Matrix, p: Id, r: Id, mask: seq<bool>): Matrix {
    m[(p, r) := if (p, r) in m && |m[(p, r)]| <= |mask| then Or(m[(p, r)], mask) else mask]
  }

  /** The array of each mask is known, and one array has one content. */
  ghost predicate CellsMatch<Cell>(s: State, cells: map<Id, Cell>) {
    && (forall x {:trigger x in cells} :: x in cells <==> IsEntry(s, x))
    && (forall x, y {:trigger Shares(cells, x, y)} :: Shares(cells, x, y) ==> s[x].mask == s[y].mask)
  }

  /** The mask array of `e` is in no other entry. */
  ghost predicate Unshared<Cell(!new)>(cells: map<Id, Cell>, e: Id) {
    forall x {:trigger Shares(cells, x, e)} :: Shares(cells, x, e) ==> x == e
  }

  /** Every action of `a` is one of `b`. */
  predicate Within(a: seq<bool>, b: seq<bool>)
    requires |a| <= |b|
  {
    forall k :: 0 <= k < |a| ==> a[k] ==> b[k]
  }

  /** The part of a state that remains when the entries of the resources in `rs` are gone. */
  function Cleared(s: State, rs: set<Id>): State {
    var dead := EntriesOf(s, rs);
    map x | x in s && x !in dead ::
      match s[x]
      case ResourceRec(_, _, acl, _) => if x in rs then WithAcl(s[x], []) else s[x]
      case PartyRec(_, _, _, acl, _) => WithAcl(s[x], Without(acl, dead))
      case _ => s[x]
  }

  /** The ids of the entries on the resources in `rs`. */
  function EntriesOf(s: State, rs: set<Id>): set<Id> {
    set e | e in s && IsEntry(s, e) && s[e].resourceId in rs
  }
}
