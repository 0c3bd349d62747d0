/** The access operations keep the two indexes in step, and act on the access matrix as their names say. */
module AccessProofs {
  import opened Basics
  import opened ObjectStore
  import opened Access

  /** What the matrix holds, entry by entry. */
  lemma MatrixFacts(s: State)
    requires OneEntryPerPair(s)
    ensures forall e {:trigger IsEntry(s, e)} :: IsEntry(s, e) ==>
      (s[e].partyId, s[e].resourceId) in MatrixOf(s) && MatrixOf(s)[(s[e].partyId, s[e].resourceId)] == s[e].mask
    ensures forall p, r :: (p, r) in MatrixOf(s) ==> exists e :: Joins(s, e, p, r)
  {
    forall e | IsEntry(s, e)
      ensures (s[e].partyId, s[e].resourceId) in MatrixOf(s)
      ensures MatrixOf(s)[(s[e].partyId, s[e].resourceId)] == s[e].mask
    {
      assert e in s && s[e].EntryRec?;
    }
    forall p, r | (p, r) in MatrixOf(s) ensures exists e :: Joins(s, e, p, r) {
      var e :| e in s && IsEntry(s, e) && (s[e].partyId, s[e].resourceId) == (p, r);
      assert Joins(s, e, p, r);
    }
  }

  lemma MatrixAt(s: State, e: Id)
    requires OneEntryPerPair(s) && IsEntry(s, e)
    ensures (s[e].partyId, s[e].resourceId) in MatrixOf(s)
    ensures MatrixOf(s)[(s[e].partyId, s[e].resourceId)] == s[e].mask
  {
    MatrixFacts(s);
  }

  /** The same entries apart from `e`, which keeps its pair if it was there before. */
  ghost predicate EntriesDifferAt(s: State, t: State, e: Id) {
    && (forall x {:trigger IsEntry(t, x)} {:trigger IsEntry(s, x)} :: x != e ==>
          (IsEntry(s, x) <==> IsEntry(t, x)) && (IsEntry(s, x) ==> s[x] == t[x]))
    && IsEntry(t, e)
    && (IsEntry(s, e) ==> SamePair(s[e], t[e]))
  }

  lemma MatrixOfUpdate(s: State, t: State, e: Id)
    requires OneEntryPerPair(s) && OneEntryPerPair(t) && EntriesDifferAt(s, t, e)
    ensures MatrixOf(t) == MatrixOf(s)[(t[e].partyId, t[e].resourceId) := t[e].mask]
  {
    MatrixFacts(s);
    MatrixFacts(t);
    var m := MatrixOf(s)[(t[e].partyId, t[e].resourceId) := t[e].mask];
    forall p, r | (p, r) in MatrixOf(t) ensures (p, r) in m && m[(p, r)] == MatrixOf(t)[(p, r)] {
      var x :| Joins(t, x, p, r);
      if x != e { assert IsEntry(s, x); assert !SamePair(t[x], t[e]); }
    }
    forall p, r | (p, r) in m ensures (p, r) in MatrixOf(t) {
      if (p, r) != (t[e].partyId, t[e].resourceId) {
        var x :| Joins(s, x, p, r);
        assert IsEntry(t, x);
      }
    }
  }

  /** The entries of `t` are those of `s` without `dead`. */
  ghost predicate EntriesWithout(s: State, t: State, dead: set<Id>) {
    forall x {:trigger IsEntry(t, x)} {:trigger IsEntry(s, x)} ::
      (IsEntry(t, x) <==> IsEntry(s, x) && x !in dead) && (IsEntry(t, x) ==> s[x] == t[x])
  }

  lemma EntriesWithoutKeepsOnePerPair(s: State, t: State, dead: set<Id>)
    requires OneEntryPerPair(s) && EntriesWithout(s, t, dead)
    ensures OneEntryPerPair(t)
  {
    forall a, b | IsEntry(t, a) && IsEntry(t, b) && SamePair(t[a], t[b]) ensures a == b {
      assert IsEntry(s, a) && IsEntry(s, b);
    }
  }

  /** What is left of the matrix was there before. */
  lemma LeftWasThere(s: State, t: State, dead: set<Id>)
    requires OneEntryPerPair(s) && OneEntryPerPair(t) && EntriesWithout(s, t, dead)
    ensures forall p, r :: (p, r) in MatrixOf(t) ==> (p, r) in MatrixOf(s) && MatrixOf(s)[(p, r)] == MatrixOf(t)[(p, r)]
    ensures forall p, r :: (p, r) in MatrixOf(t) ==> exists x :: x !in dead && Joins(s, x, p, r)
  {
    MatrixFacts(s);
    MatrixFacts(t);
    forall p, r | (p, r) in MatrixOf(t)
      ensures (p, r) in MatrixOf(s) && MatrixOf(s)[(p, r)] == MatrixOf(t)[(p, r)]
      ensures exists x :: x !in dead && Joins(s, x, p, r)
    {
      var x :| Joins(t, x, p, r);
      assert IsEntry(s, x) && Joins(s, x, p, r);
    }
  }

  /** A pair with an entry that stays is still in the matrix. */
  lemma KeptIsThere(s: State, t: State, dead: set<Id>)
    requires OneEntryPerPair(s) && OneEntryPerPair(t) && EntriesWithout(s, t, dead)
    ensures forall x {:trigger IsEntry(s, x)} :: IsEntry(s, x) && x !in dead ==> (s[x].partyId, s[x].resourceId) in MatrixOf(t)
  {
    MatrixFacts(t);
    forall x | IsEntry(s, x) && x !in dead ensures (s[x].partyId, s[x].resourceId) in MatrixOf(t) { assert IsEntry(t, x); }
  }

  lemma MatrixOfRemoval(s: State, t: State, dead: set<Id>, gone: set<(Id, Id)>)
    requires OneEntryPerPair(s) && OneEntryPerPair(t) && EntriesWithout(s, t, dead)
    requires forall x {:trigger IsEntry(s, x)} :: IsEntry(s, x) ==>
      (x in dead <==> (s[x].partyId, s[x].resourceId) in gone)
    ensures MatrixOf(t) == MatrixOf(s) - gone
  {
    LeftWasThere(s, t, dead);
    KeptIsThere(s, t, dead);
    forall p, r | (p, r) in MatrixOf(t) ensures (p, r) !in gone {
      var x :| x !in dead && Joins(s, x, p, r);
      assert IsEntry(s, x);
    }
    forall p, r | (p, r) in MatrixOf(s) && (p, r) !in gone ensures (p, r) in MatrixOf(t) {
      MatrixFacts(s);
      var x :| Joins(s, x, p, r);
      assert IsEntry(s, x);
    }
  }

  /** The same entries make the same matrix. */
  lemma SameEntriesMatrix(s: State, t: State)
    requires OneEntryPerPair(s) && EntriesWithout(s, t, {})
    ensures OneEntryPerPair(t) && MatrixOf(t) == MatrixOf(s)
  {
    EntriesWithoutKeepsOnePerPair(s, t, {});
    MatrixOfRemoval(s, t, {}, {});
  }

  // ----- Finding an entry -----

  lemma {:induction false} FindEntryMeans(s: State, ids: seq<Id>, resourceId: Id)
    requires forall e :: e in ids ==> IsEntry(s, e)
    ensures match FindEntry(s, ids, resourceId, false)
            case Found(e) => e in ids && IsEntry(s, e) && s[e].resourceId == resourceId
            case Absent => forall e :: e in ids && IsEntry(s, e) ==> s[e].resourceId != resourceId
            case Failed => false
  {
    if ids != [] {
      assert forall e :: e in ids <==> e == ids[0] || e in ids[1..];
      FindEntryMeans(s, ids[1..], resourceId);
    }
  }

  /** A live entry on the resource. */
  predicate EntryOn(s: State, e: Id, resourceId: Id) { IsEntry(s, e) && s[e].resourceId == resourceId }

  /** The i-th id is the first that names a live entry on the resource. */
  ghost predicate FirstOn(s: State, ids: seq<Id>, i: nat, resourceId: Id) {
    i < |ids| && EntryOn(s, ids[i], resourceId) && forall j :: 0 <= j < i ==> !EntryOn(s, ids[j], resourceId)
  }

  /** No id names a live entry on the resource. */
  ghost predicate NoneOn(s: State, ids: seq<Id>, resourceId: Id) { forall e :: e in ids ==> !EntryOn(s, e, resourceId) }

  /** The last id names no entry. */
  predicate LastDead(s: State, ids: seq<Id>) { ids != [] && !IsEntry(s, ids[|ids| - 1]) }

  /**
  For any list, whatever it names: the search finds the first live entry on the resource. When there is none, it fails
  exactly when the last id of the list names no entry.
  */
  lemma FindEntryFirst(s: State, ids: seq<Id>, resourceId: Id)
    ensures match FindEntry(s, ids, resourceId, false)
            case Found(e) => exists i: nat :: FirstOn(s, ids, i, resourceId) && ids[i] == e
            case Absent => NoneOn(s, ids, resourceId) && !LastDead(s, ids)
            case Failed => NoneOn(s, ids, resourceId) && LastDead(s, ids)
  {
    FindEntryFrom(s, ids, resourceId, false);
  }

  lemma {:induction false} FindEntryFrom(s: State, ids: seq<Id>, resourceId: Id, failed: bool)
    ensures match FindEntry(s, ids, resourceId, failed)
            case Found(e) => exists i: nat :: FirstOn(s, ids, i, resourceId) && ids[i] == e
            case Absent => NoneOn(s, ids, resourceId) && !LastDead(s, ids) && (ids == [] ==> !failed)
            case Failed => NoneOn(s, ids, resourceId) && (LastDead(s, ids) || (ids == [] && failed))
  {
    if ids != [] {
      assert forall e :: e in ids <==> e == ids[0] || e in ids[1..];
      if EntryOn(s, ids[0], resourceId) {
        assert FirstOn(s, ids, 0, resourceId);
      } else {
        FindEntryFrom(s, ids[1..], resourceId, !IsEntry(s, ids[0]));
        if FindEntry(s, ids, resourceId, failed).Found? {
          FirstShifts(s, ids, resourceId, FindEntry(s, ids, resourceId, failed).id);
        }
      }
    }
  }

  lemma FirstShifts(s: State, ids: seq<Id>, resourceId: Id, e: Id)
    requires ids != [] && !EntryOn(s, ids[0], resourceId)
    requires exists i: nat :: FirstOn(s, ids[1..], i, resourceId) && ids[1..][i] == e
    ensures exists i: nat :: FirstOn(s, ids, i, resourceId) && ids[i] == e
  {
    var i: nat :| FirstOn(s, ids[1..], i, resourceId) && ids[1..][i] == e;
    forall j | 0 <= j < i + 1 ensures !EntryOn(s, ids[j], resourceId) { if j > 0 { assert ids[j] == ids[1..][j - 1]; } }
    assert FirstOn(s, ids, i + 1, resourceId);
  }

  /** On linked lists the search of a party's list finds the pair's entry when there is one, and never fails. */
  lemma FindEntryExact(s: State, partyId: Id, resourceId: Id)
    requires Linked(s) && IsParty(s, partyId)
    ensures match FindEntry(s, s[partyId].acl, resourceId, false)
            case Found(e) => Joins(s, e, partyId, resourceId)
            case Absent => forall e :: !Joins(s, e, partyId, resourceId)
            case Failed => false
  {
    assert forall e :: e in s[partyId].acl ==> InAcl(s, partyId, e);
    FindEntryMeans(s, s[partyId].acl, resourceId);
  }

  // ----- Changes that have nothing to do with access -----

  /** The two states have the same entries and the same lists of entry ids. */
  ghost predicate SameAccess(s: State, t: State) {
    && (forall x {:trigger IsEntry(t, x)} :: IsEntry(t, x) <==> IsEntry(s, x))
    && (forall x {:trigger IsEntry(t, x)} :: IsEntry(t, x) ==> t[x] == s[x])
    && (forall x {:trigger IsResource(t, x)} :: IsResource(t, x) <==> IsResource(s, x))
    && (forall x {:trigger IsParty(t, x)} :: IsParty(t, x) <==> IsParty(s, x))
    && (forall x {:trigger HasAcl(t, x)} :: HasAcl(t, x) <==> HasAcl(s, x))
    && (forall x {:trigger HasAcl(t, x)} :: HasAcl(t, x) ==> t[x].acl == s[x].acl)
  }

  lemma SameAccessLinked(s: State, t: State)
    requires Linked(s) && SameAccess(s, t)
    ensures Linked(t)
  {
    assert forall x, e {:trigger InAcl(t, x, e)} :: InAcl(t, x, e) <==> InAcl(s, x, e);
    forall e | IsEntry(t, e)
      ensures && IsResource(t, t[e].resourceId) && InAcl(t, t[e].resourceId, e)
              && IsParty(t, t[e].partyId) && InAcl(t, t[e].partyId, e)
    {
      assert IsEntry(s, e);
      assert IsResource(t, s[e].resourceId) && IsParty(t, s[e].partyId);
    }
  }

  lemma SameAccessEntries(s: State, t: State)
    requires SameAccess(s, t)
    ensures EntriesWithout(s, t, {}) && (Sized(s) ==> Sized(t))
  {
    forall x ensures IsEntry(t, x) <==> IsEntry(s, x) { }
  }

  lemma SameAccessConsistent(s: State, t: State)
    requires Consistent(s) && SameAccess(s, t)
    ensures Consistent(t) && MatrixOf(t) == MatrixOf(s)
  {
    SameAccessLinked(s, t);
    SameAccessEntries(s, t);
    SameEntriesMatrix(s, t);
  }

  // ----- dbCreateACLEntry -----

  /** The two lists take the new entry, and no other list changes. */
  lemma CreateEntryLists(s: State, resourceId: Id, partyId: Id, mask: seq<bool>, newId: Id)
    requires Linked(s) && IsResource(s, resourceId) && IsParty(s, partyId) && newId !in s
    ensures var t := CreateEntry(s, resourceId, partyId, mask, newId).state;
      && (forall x {:trigger HasAcl(t, x)} :: HasAcl(t, x) <==> HasAcl(s, x))
      && (forall x {:trigger HasAcl(t, x)} :: HasAcl(t, x) ==> NoDup(t[x].acl))
      && (forall x, e {:trigger InAcl(t, x, e)} ::
            InAcl(t, x, e) <==> InAcl(s, x, e) || (e == newId && (x == resourceId || x == partyId)))
  {
    var t := CreateEntry(s, resourceId, partyId, mask, newId).state;
    var listed, listed' := InAcl(s, resourceId, newId), InAcl(s, partyId, newId);
    assert HasAcl(s, resourceId) && HasAcl(s, partyId);
    AppendNoDup(s[resourceId].acl, newId);
    AppendNoDup(s[partyId].acl, newId);
    forall x | HasAcl(t, x) ensures HasAcl(s, x) && NoDup(t[x].acl) {
      if x != resourceId && x != partyId { assert t[x] == s[x]; }
    }
  }

  lemma CreateEntryMade(s: State, resourceId: Id, partyId: Id, mask: seq<bool>, newId: Id)
    requires IsResource(s, resourceId) && IsParty(s, partyId) && newId !in s
    ensures var o := CreateEntry(s, resourceId, partyId, mask, newId);
      && o.ok && EntriesDifferAt(s, o.state, newId)
      && o.state[newId] == EntryRec(resourceId, partyId, mask) && o.state.Keys == s.Keys + {newId}
      && (forall x {:trigger IsResource(o.state, x)} :: IsResource(o.state, x) <==> IsResource(s, x))
      && (forall x {:trigger IsParty(o.state, x)} :: IsParty(o.state, x) <==> IsParty(s, x))
  {
  }

  /** A new entry is linked on both sides, whether or not the pair already had one. */
  lemma CreateEntryKeepsLinked(s: State, resourceId: Id, partyId: Id, mask: seq<bool>, newId: Id)
    requires Linked(s) && IsResource(s, resourceId) && IsParty(s, partyId) && newId !in s
    ensures var o := CreateEntry(s, resourceId, partyId, mask, newId);
      o.ok && Linked(o.state) && EntriesDifferAt(s, o.state, newId)
      && o.state[newId] == EntryRec(resourceId, partyId, mask) && o.state.Keys == s.Keys + {newId}
  {
    CreateEntryLists(s, resourceId, partyId, mask, newId);
    CreateEntryMade(s, resourceId, partyId, mask, newId);
    LinkedWithOneMore(s, CreateEntry(s, resourceId, partyId, mask, newId).state, resourceId, partyId, newId);
  }

  lemma LinkedWithOneMore(s: State, t: State, resourceId: Id, partyId: Id, newId: Id)
    requires Linked(s) && IsResource(s, resourceId) && IsParty(s, partyId) && newId !in s && EntriesDifferAt(s, t, newId)
    requires t[newId].resourceId == resourceId && t[newId].partyId == partyId
    requires forall x {:trigger HasAcl(t, x)} :: HasAcl(t, x) ==> NoDup(t[x].acl)
    requires forall x {:trigger IsResource(t, x)} :: IsResource(t, x) <==> IsResource(s, x)
    requires forall x {:trigger IsParty(t, x)} :: IsParty(t, x) <==> IsParty(s, x)
    requires forall x, e {:trigger InAcl(t, x, e)} ::
      InAcl(t, x, e) <==> InAcl(s, x, e) || (e == newId && (x == resourceId || x == partyId))
    ensures Linked(t)
  {
    forall e | IsEntry(t, e)
      ensures && IsResource(t, t[e].resourceId) && InAcl(t, t[e].resourceId, e)
              && IsParty(t, t[e].partyId) && InAcl(t, t[e].partyId, e)
    {
      assert e == newId || IsEntry(s, e);
      assert IsResource(t, resourceId) && IsParty(t, partyId);
    }
    forall x, e | InAcl(t, x, e)
      ensures IsEntry(t, e) && x == if IsResource(t, x) then t[e].resourceId else t[e].partyId
    {
      var listed := InAcl(s, x, e);
      assert IsResource(t, x) <==> IsResource(s, x);
      assert listed ==> IsEntry(s, e) && e != newId;
    }
  }

  /** dbCreateACLEntry keeps one entry per pair exactly when it is called for a pair that has none. */
  lemma CreateEntryConsistentIff(s: State, resourceId: Id, partyId: Id, mask: seq<bool>, newId: Id)
    requires Consistent(s) && IsResource(s, resourceId) && IsParty(s, partyId)
    requires newId !in s && |mask| == MASK_LENGTH
    ensures var t := CreateEntry(s, resourceId, partyId, mask, newId).state;
      Consistent(t) <==> (partyId, resourceId) !in MatrixOf(s)
    ensures var t := CreateEntry(s, resourceId, partyId, mask, newId).state;
      Consistent(t) ==> MatrixOf(t) == MatrixOf(s)[(partyId, resourceId) := mask]
  {
    var t := CreateEntry(s, resourceId, partyId, mask, newId).state;
    CreateEntryKeepsLinked(s, resourceId, partyId, mask, newId);
    NewEntryIff(s, t, newId);
  }

  /** A new entry keeps one entry per pair exactly when its pair had none. */
  lemma NewEntryIff(s: State, t: State, newId: Id)
    requires OneEntryPerPair(s) && newId !in s && EntriesDifferAt(s, t, newId)
    ensures OneEntryPerPair(t) <==> (t[newId].partyId, t[newId].resourceId) !in MatrixOf(s)
    ensures OneEntryPerPair(t) ==> MatrixOf(t) == MatrixOf(s)[(t[newId].partyId, t[newId].resourceId) := t[newId].mask]
  {
    MatrixFacts(s);
    if (t[newId].partyId, t[newId].resourceId) in MatrixOf(s) {
      var x :| Joins(s, x, t[newId].partyId, t[newId].resourceId);
      assert IsEntry(t, x) && IsEntry(t, newId) && SamePair(t[x], t[newId]);
    } else {
      forall a, b | IsEntry(t, a) && IsEntry(t, b) && SamePair(t[a], t[b]) ensures a == b {
        assert a == newId || IsEntry(s, a);
        assert b == newId || IsEntry(s, b);
      }
      MatrixOfUpdate(s, t, newId);
    }
  }

  // ----- setAccess -----

  /** Changing the mask of one entry changes nothing but that mask. */
  lemma NewMaskConsistent(s: State, e: Id, mask: seq<bool>)
    requires Consistent(s) && IsEntry(s, e) && |mask| == MASK_LENGTH
    ensures var t := s[e := s[e].(mask := mask)];
      Consistent(t) && MatrixOf(t) == MatrixOf(s)[(s[e].partyId, s[e].resourceId) := mask]
  {
    var t := s[e := s[e].(mask := mask)];
    MasksOnlyConsistent(s, t);
    MatrixOfUpdate(s, t, e);
  }

  /** States that differ in masks only are linked alike. */
  ghost predicate SameButMasks(s: State, t: State) {
    && s.Keys == t.Keys
    && (forall x {:trigger t[x]} :: x in s ==>
          if s[x].EntryRec? then t[x].EntryRec? && SamePair(s[x], t[x]) && |t[x].mask| == |s[x].mask|
          else t[x] == s[x])
  }

  lemma MasksOnlyConsistent(s: State, t: State)
    requires Consistent(s) && SameButMasks(s, t)
    ensures Consistent(t)
  {
    assert forall x {:trigger IsEntry(t, x)} :: IsEntry(t, x) <==> IsEntry(s, x);
    assert forall x {:trigger IsResource(t, x)} :: IsResource(t, x) <==> IsResource(s, x);
    assert forall x {:trigger HasAcl(t, x)} :: HasAcl(t, x) <==> HasAcl(s, x);
    assert forall x, e {:trigger InAcl(t, x, e)} :: InAcl(t, x, e) <==> InAcl(s, x, e);
    forall e | IsEntry(t, e)
      ensures && IsResource(t, t[e].resourceId) && InAcl(t, t[e].resourceId, e)
              && IsParty(t, t[e].partyId) && InAcl(t, t[e].partyId, e)
    {
      assert IsEntry(s, e);
    }
  }

  /** setAccess: the pair's mask is exactly the new one, and every other pair keeps its own. */
  lemma SetAccessOnMatrix(s: State, resourceId: Id, partyId: Id, mask: seq<bool>, newId: Id)
    requires Consistent(s) && IsResource(s, resourceId) && IsParty(s, partyId)
    requires newId !in s && |mask| == MASK_LENGTH
    ensures var o := SetAccess(s, resourceId, partyId, mask, newId);
      o.ok && Consistent(o.state) && MatrixOf(o.state) == MatrixOf(s)[(partyId, resourceId) := mask]
  {
    FindEntryExact(s, partyId, resourceId);
    match FindEntry(s, s[partyId].acl, resourceId, false)
    case Absent =>
      MatrixFacts(s);
      CreateEntryKeepsLinked(s, resourceId, partyId, mask, newId);
      CreateEntryConsistentIff(s, resourceId, partyId, mask, newId);
    case Found(e) => NewMaskConsistent(s, e, mask);
  }

  // ----- addAccess -----

  lemma OrSharedConsistent<Cell>(s: State, cells: map<Id, Cell>, e: Id, mask: seq<bool>)
    requires Consistent(s) && |mask| == MASK_LENGTH
    ensures Consistent(OrShared(s, cells, e, mask))
  {
    MasksOnlyConsistent(s, OrShared(s, cells, e, mask));
  }

  lemma OrSame(a: seq<bool>, b: seq<bool>)
    requires |a| == |b|
    ensures Or(a, b) == a <==> Within(b, a)
  {
    if Or(a, b) == a {
      forall k | 0 <= k < |b| && b[k] ensures a[k] { assert Or(a, b)[k]; }
    }
  }

  /** The search finds the pair's own entry. */
  lemma FindEntryIs(s: State, e: Id)
    requires Consistent(s) && IsEntry(s, e)
    ensures IsParty(s, s[e].partyId)
    ensures FindEntry(s, s[s[e].partyId].acl, s[e].resourceId, false) == Found(e)
  {
    FindEntryExact(s, s[e].partyId, s[e].resourceId);
    var f := FindEntry(s, s[s[e].partyId].acl, s[e].resourceId, false);
    assert Joins(s, e, s[e].partyId, s[e].resourceId);
    if f.Found? { assert IsEntry(s, f.id) && SamePair(s[f.id], s[e]); }
  }

  /** Editing an array that only `e` holds, or adding nothing to it, changes the mask of that pair only. */
  lemma OrSharedAlone<Cell(!new)>(s: State, cells: map<Id, Cell>, e: Id, mask: seq<bool>)
    requires Consistent(s) && CellsMatch(s, cells) && |mask| == MASK_LENGTH && IsEntry(s, e)
    requires Unshared(cells, e) || Within(mask, s[e].mask)
    ensures Consistent(OrShared(s, cells, e, mask))
    ensures MatrixOf(OrShared(s, cells, e, mask))
         == MatrixOf(s)[(s[e].partyId, s[e].resourceId) := Or(s[e].mask, mask)]
  {
    var t := OrShared(s, cells, e, mask);
    OrSharedConsistent(s, cells, e, mask);
    OrSame(s[e].mask, mask);
    forall x | x != e
      ensures IsEntry(s, x) <==> IsEntry(t, x)
      ensures IsEntry(s, x) ==> s[x] == t[x]
    {
      if IsEntry(s, x) && Shares(cells, x, e) { assert s[x].mask == s[e].mask; }
    }
    assert Shares(cells, e, e);
    MatrixOfUpdate(s, t, e);
  }

  /** Editing an array that another entry holds too, with something new, changes the other pair as well. */
  lemma OrSharedElsewhere<Cell(!new)>(s: State, cells: map<Id, Cell>, e: Id, mask: seq<bool>)
    requires Consistent(s) && CellsMatch(s, cells) && |mask| == MASK_LENGTH && IsEntry(s, e)
    requires !Unshared(cells, e) && !Within(mask, s[e].mask)
    ensures Consistent(OrShared(s, cells, e, mask))
    ensures MatrixOf(OrShared(s, cells, e, mask))
         != MatrixOf(s)[(s[e].partyId, s[e].resourceId) := Or(s[e].mask, mask)]
  {
    var t := OrShared(s, cells, e, mask);
    var x :| Shares(cells, x, e) && x != e;
    OrSharedConsistent(s, cells, e, mask);
    assert IsEntry(s, x) && s[x].mask == s[e].mask;
    assert !SamePair(s[x], s[e]);
    OrSame(s[x].mask, mask);
    MatrixAt(s, x);
    MatrixAt(t, x);
  }

  /**
  addAccess on a pair with an entry: the pair's mask becomes the union of old and new, and the other pairs keep
  theirs exactly when no other entry holds the same mask array, or the new mask adds nothing.
  */
  lemma AddAccessOnMatrixIff<Cell(!new)>(s: State, cells: map<Id, Cell>, mask: seq<bool>, newId: Id, e: Id)
    requires Consistent(s) && CellsMatch(s, cells) && |mask| == MASK_LENGTH && IsEntry(s, e)
    ensures IsParty(s, s[e].partyId)
    ensures var o := AddAccess(s, cells, s[e].resourceId, s[e].partyId, mask, newId);
      && o.ok && Consistent(o.state) && IsEntry(o.state, e)
      && o.state[e] == s[e].(mask := Or(s[e].mask, mask))
      && (MatrixOf(o.state) == MatrixOf(s)[(s[e].partyId, s[e].resourceId) := Or(s[e].mask, mask)]
          <==> Unshared(cells, e) || Within(mask, s[e].mask))
  {
    FindEntryIs(s, e);
    OrSharedConsistent(s, cells, e, mask);
    assert Shares(cells, e, e);
    if Unshared(cells, e) || Within(mask, s[e].mask) {
      OrSharedAlone(s, cells, e, mask);
    } else {
      OrSharedElsewhere(s, cells, e, mask);
    }
  }

  /** addAccess on a pair without an entry creates one with the given mask. */
  lemma AddAccessCreates<Cell(!new)>(s: State, cells: map<Id, Cell>, resourceId: Id, partyId: Id,
                                     mask: seq<bool>, newId: Id)
    requires Consistent(s) && |mask| == MASK_LENGTH && newId !in s
    requires IsResource(s, resourceId) && IsParty(s, partyId) && (partyId, resourceId) !in MatrixOf(s)
    ensures var o := AddAccess(s, cells, resourceId, partyId, mask, newId);
      o.ok && Consistent(o.state) && MatrixOf(o.state) == MatrixOf(s)[(partyId, resourceId) := mask]
  {
    FindEntryExact(s, partyId, resourceId);
    MatrixFacts(s);
    CreateEntryKeepsLinked(s, resourceId, partyId, mask, newId);
    CreateEntryConsistentIff(s, resourceId, partyId, mask, newId);
  }

  // ----- deleteAccess -----

  /** The state after the entry `e` is taken out of both lists and out of the store. */
  function RemoveEntry(s: State, e: Id): State
    requires IsEntry(s, e) && IsResource(s, s[e].resourceId) && IsParty(s, s[e].partyId)
  {
    var t := Detach(s, s[e].partyId, e);
    var r := s[e].resourceId;
    t[r := WithAcl(t[r], RemoveFrom(e, t[r].acl))]
  }

  lemma RemoveEntryLists(s: State, e: Id)
    requires Linked(s) && IsEntry(s, e)
    ensures var t := RemoveEntry(s, e);
      && (forall x {:trigger HasAcl(t, x)} :: HasAcl(t, x) <==> HasAcl(s, x))
      && (forall x, y {:trigger InAcl(t, x, y)} :: InAcl(t, x, y) <==> InAcl(s, x, y) && y != e)
      && (forall x {:trigger HasAcl(t, x)} :: HasAcl(t, x) ==> NoDup(t[x].acl))
  {
    var p, r := s[e].partyId, s[e].resourceId;
    var t := RemoveEntry(s, e);
    assert HasAcl(s, p) && HasAcl(s, r);
    RemoveFromFacts(e, s[p].acl);
    RemoveFromFacts(e, s[r].acl);
    forall x, y ensures InAcl(t, x, y) <==> InAcl(s, x, y) && y != e {
      if InAcl(s, x, y) && y == e { assert x == p || x == r; }
    }
  }

  lemma RemoveEntryEntries(s: State, e: Id)
    requires IsEntry(s, e) && IsResource(s, s[e].resourceId) && IsParty(s, s[e].partyId)
    ensures EntriesWithout(s, RemoveEntry(s, e), {e})
    ensures forall x {:trigger IsResource(RemoveEntry(s, e), x)} :: IsResource(RemoveEntry(s, e), x) <==> IsResource(s, x)
    ensures forall x {:trigger IsParty(RemoveEntry(s, e), x)} :: IsParty(RemoveEntry(s, e), x) <==> IsParty(s, x)
  {
  }

  lemma RemoveEntryLinked(s: State, e: Id)
    requires Linked(s) && IsEntry(s, e)
    ensures Linked(RemoveEntry(s, e)) && EntriesWithout(s, RemoveEntry(s, e), {e})
  {
    RemoveEntryLists(s, e);
    RemoveEntryEntries(s, e);
    LinkedWithOneLess(s, RemoveEntry(s, e), e);
  }

  lemma LinkedWithOneLess(s: State, t: State, e: Id)
    requires Linked(s) && EntriesWithout(s, t, {e})
    requires forall x {:trigger HasAcl(t, x)} :: HasAcl(t, x) ==> NoDup(t[x].acl)
    requires forall x {:trigger IsResource(t, x)} :: IsResource(t, x) <==> IsResource(s, x)
    requires forall x {:trigger IsParty(t, x)} :: IsParty(t, x) <==> IsParty(s, x)
    requires forall x, y {:trigger InAcl(t, x, y)} :: InAcl(t, x, y) <==> InAcl(s, x, y) && y != e
    ensures Linked(t)
  {
    forall y | IsEntry(t, y)
      ensures && IsResource(t, t[y].resourceId) && InAcl(t, t[y].resourceId, y)
              && IsParty(t, t[y].partyId) && InAcl(t, t[y].partyId, y)
    {
      assert IsEntry(s, y);
      assert IsResource(t, s[y].resourceId) && IsParty(t, s[y].partyId);
    }
    forall x, y | InAcl(t, x, y)
      ensures IsEntry(t, y) && x == if IsResource(t, x) then t[y].resourceId else t[y].partyId
    {
      assert InAcl(s, x, y) && IsEntry(s, y);
      assert IsResource(t, x) <==> IsResource(s, x);
    }
  }

  lemma RemoveEntryConsistent(s: State, e: Id)
    requires Consistent(s) && IsEntry(s, e)
    ensures var t := RemoveEntry(s, e);
      Consistent(t) && MatrixOf(t) == MatrixOf(s) - {(s[e].partyId, s[e].resourceId)}
  {
    var t := RemoveEntry(s, e);
    RemoveEntryLinked(s, e);
    EntriesWithoutKeepsOnePerPair(s, t, {e});
    forall x | IsEntry(s, x)
      ensures x in {e} <==> (s[x].partyId, s[x].resourceId) in {(s[e].partyId, s[e].resourceId)}
    {
      if SamePair(s[x], s[e]) { assert x == e; }
    }
    MatrixOfRemoval(s, t, {e}, {(s[e].partyId, s[e].resourceId)});
  }

  /** Positions of the copy that hold no entry of the party are passed over. */
  lemma {:induction false} SkipOthers(s: State, resourceId: Id, partyId: Id, ids: seq<Id>, i: nat, j: nat)
    requires IsResource(s, resourceId) && IsParty(s, partyId) && i <= j <= |ids|
    requires forall k :: i <= k < j ==> IsEntry(s, ids[k]) && s[ids[k]].partyId != partyId
    ensures DeleteAccessFrom(s, resourceId, partyId, ids, i) == DeleteAccessFrom(s, resourceId, partyId, ids, j)
    decreases j - i
  {
    if i < j { SkipOthers(s, resourceId, partyId, ids, i + 1, j); }
  }

  /** deleteAccess on a pair without an entry changes nothing. */
  lemma DeleteAccessNone(s: State, resourceId: Id, partyId: Id)
    requires Linked(s) && IsResource(s, resourceId) && IsParty(s, partyId)
    requires forall e :: !Joins(s, e, partyId, resourceId)
    ensures DeleteAccess(s, resourceId, partyId) == Outcome(s, true)
  {
    var ids := s[resourceId].acl;
    forall k | 0 <= k < |ids| ensures IsEntry(s, ids[k]) && s[ids[k]].partyId != partyId {
      assert InAcl(s, resourceId, ids[k]);
      assert !Joins(s, ids[k], partyId, resourceId);
    }
    SkipOthers(s, resourceId, partyId, ids, 0, |ids|);
  }

  /** The position of a linked entry in its resource's list. */
  lemma PositionOf(s: State, e: Id) returns (i: nat)
    requires Linked(s) && IsEntry(s, e)
    ensures IsResource(s, s[e].resourceId) && i < |s[s[e].resourceId].acl| && s[s[e].resourceId].acl[i] == e
  {
    assert InAcl(s, s[e].resourceId, e);
    i :| 0 <= i < |s[s[e].resourceId].acl| && s[s[e].resourceId].acl[i] == e;
  }

  /** One step of deleteAccess: the first entry of the pair, at the position it has in the list, is removed. */
  lemma DeleteAccessStep(s: State, resourceId: Id, partyId: Id, i: nat)
    requires Linked(s) && IsResource(s, resourceId) && IsParty(s, partyId)
    requires i < |s[resourceId].acl| && Joins(s, s[resourceId].acl[i], partyId, resourceId)
    ensures DeleteAccessFrom(s, resourceId, partyId, s[resourceId].acl, i)
         == DeleteAccessFrom(RemoveEntry(s, s[resourceId].acl[i]), resourceId, partyId, s[resourceId].acl, i + 1)
  {
    assert HasAcl(s, resourceId);
    RemoveAtIsRemoveFrom(i, s[resourceId].acl);
  }

  /** When the pair has one entry, the other positions of the resource's list hold entries of other parties. */
  lemma OthersAreNot(s: State, e: Id, i: nat)
    requires Linked(s) && IsEntry(s, e) && AtMostOneEntry(s, s[e].partyId, s[e].resourceId)
    requires IsResource(s, s[e].resourceId) && i < |s[s[e].resourceId].acl| && s[s[e].resourceId].acl[i] == e
    ensures var ids := s[s[e].resourceId].acl;
      forall k :: 0 <= k < |ids| && k != i ==> IsEntry(s, ids[k]) && s[ids[k]].partyId != s[e].partyId && ids[k] != e
  {
    var p, r := s[e].partyId, s[e].resourceId;
    var ids := s[r].acl;
    assert Joins(s, e, p, r);
    forall k | 0 <= k < |ids| && k != i ensures IsEntry(s, ids[k]) && s[ids[k]].partyId != p && ids[k] != e {
      assert HasAcl(s, r) && InAcl(s, r, ids[k]);
      if s[ids[k]].partyId == p { assert Joins(s, ids[k], p, r); }
    }
  }

  /** deleteAccess on a pair with one entry removes that entry. */
  lemma DeleteAccessOne(s: State, e: Id)
    requires Linked(s) && IsEntry(s, e) && AtMostOneEntry(s, s[e].partyId, s[e].resourceId)
    ensures IsResource(s, s[e].resourceId) && IsParty(s, s[e].partyId)
    ensures DeleteAccess(s, s[e].resourceId, s[e].partyId) == Outcome(RemoveEntry(s, e), true)
  {
    var p, r := s[e].partyId, s[e].resourceId;
    var ids := s[r].acl;
    var i := PositionOf(s, e);
    OthersAreNot(s, e, i);
    SkipOthers(s, r, p, ids, 0, i);
    DeleteAccessStep(s, r, p, i);
    RemoveEntryEntries(s, e);
    SkipOthers(RemoveEntry(s, e), r, p, ids, i + 1, |ids|);
  }

  /** deleteAccess: the pair has no rights left, and every other pair keeps its own. */
  lemma DeleteAccessOnMatrix(s: State, resourceId: Id, partyId: Id)
    requires Consistent(s) && IsResource(s, resourceId) && IsParty(s, partyId)
    ensures var o := DeleteAccess(s, resourceId, partyId);
      o.ok && Consistent(o.state) && MatrixOf(o.state) == MatrixOf(s) - {(partyId, resourceId)}
  {
    if e :| Joins(s, e, partyId, resourceId) {
      OnePairAtMost(s, partyId, resourceId);
      DeleteAccessOne(s, e);
      RemoveEntryConsistent(s, e);
    } else {
      DeleteAccessNone(s, resourceId, partyId);
      MatrixFacts(s);
    }
  }

  lemma OnePairAtMost(s: State, partyId: Id, resourceId: Id)
    requires OneEntryPerPair(s)
    ensures AtMostOneEntry(s, partyId, resourceId)
  {
    forall a, b | Joins(s, a, partyId, resourceId) && Joins(s, b, partyId, resourceId) ensures a == b {
      assert IsEntry(s, a) && IsEntry(s, b) && SamePair(s[a], s[b]);
    }
  }

  /** An id of a deleted object, left of the position the loop has reached, stays in the resource's list. */
  lemma {:induction false} DeadIdStays(s: State, resourceId: Id, partyId: Id, ids: seq<Id>, i: nat, pos: nat)
    requires IsResource(s, resourceId) && IsParty(s, partyId) && pos < i <= |ids|
    requires pos < |s[resourceId].acl| && s[resourceId].acl[pos] !in s
    ensures var t := DeleteAccessFrom(s, resourceId, partyId, ids, i).state;
      IsResource(t, resourceId) && pos < |t[resourceId].acl| && t[resourceId].acl[pos] !in t
    decreases |ids| - i
  {
    if i < |ids| {
      var o := DeleteAccessTurn(s, resourceId, partyId, ids[i], i);
      if o.ok { DeadIdStays(o.state, resourceId, partyId, ids, i + 1, pos); }
    }
  }

  /** The first position at or after `from` that holds an entry of the party, or the end of the list. */
  lemma {:induction false} NextMatch(s: State, resourceId: Id, partyId: Id, from: nat) returns (i: nat)
    requires Linked(s) && IsResource(s, resourceId) && from <= |s[resourceId].acl|
    ensures from <= i <= |s[resourceId].acl|
    ensures i < |s[resourceId].acl| ==> Joins(s, s[resourceId].acl[i], partyId, resourceId)
    ensures forall k :: from <= k < i ==> IsEntry(s, s[resourceId].acl[k]) && s[s[resourceId].acl[k]].partyId != partyId
    decreases |s[resourceId].acl| - from
  {
    i := from;
    if i < |s[resourceId].acl| {
      assert InAcl(s, resourceId, s[resourceId].acl[i]);
      if s[s[resourceId].acl[i]].partyId != partyId { i := NextMatch(s, resourceId, partyId, from + 1); }
    }
  }

  /** An entry that has moved one position to the left is deleted, but its id stays in the list. */
  lemma MovedIdLeftBehind(t: State, resourceId: Id, partyId: Id, ids: seq<Id>, j: nat)
    requires IsResource(t, resourceId) && IsParty(t, partyId) && 1 <= j < |ids|
    requires Joins(t, ids[j], partyId, resourceId)
    requires |t[resourceId].acl| == |ids| - 1 && t[resourceId].acl[j - 1] == ids[j]
    ensures var o := DeleteAccessFrom(t, resourceId, partyId, ids, j);
      !o.ok || !Linked(o.state)
  {
    if j < |ids| - 1 {
      var u := Detach(t, partyId, ids[j]);
      var v := u[resourceId := WithAcl(u[resourceId], RemoveAt(j, u[resourceId].acl))];
      assert v[resourceId].acl[j - 1] == ids[j];
      DeadIdStays(v, resourceId, partyId, ids, j + 1, j - 1);
      var o := DeleteAccessFrom(t, resourceId, partyId, ids, j).state;
      assert InAcl(o, resourceId, o[resourceId].acl[j - 1]);
      assert !IsEntry(o, o[resourceId].acl[j - 1]);
    }
  }

  lemma AfterFirst(s: State, resourceId: Id, i: nat)
    requires Linked(s) && IsResource(s, resourceId) && i < |s[resourceId].acl|
    ensures IsEntry(s, s[resourceId].acl[i]) && s[s[resourceId].acl[i]].resourceId == resourceId
    ensures IsParty(s, s[s[resourceId].acl[i]].partyId)
    ensures var t := RemoveEntry(s, s[resourceId].acl[i]);
      && IsResource(t, resourceId) && t[resourceId].acl == RemoveAt(i, s[resourceId].acl)
      && (forall p {:trigger IsParty(t, p)} :: IsParty(t, p) <==> IsParty(s, p))
      && (forall k :: 0 <= k < |s[resourceId].acl| && k != i ==>
            && IsEntry(s, s[resourceId].acl[k]) && IsEntry(t, s[resourceId].acl[k])
            && t[s[resourceId].acl[k]] == s[s[resourceId].acl[k]])
  {
    var ids := s[resourceId].acl;
    assert HasAcl(s, resourceId) && InAcl(s, resourceId, ids[i]);
    RemoveAtIsRemoveFrom(i, ids);
    forall k | 0 <= k < |ids| && k != i
      ensures IsEntry(s, ids[k]) && IsEntry(RemoveEntry(s, ids[i]), ids[k])
    {
      assert InAcl(s, resourceId, ids[k]) && ids[k] != ids[i];
    }
  }

  /** The second entry is still there once the first is removed, but its id stands one position to the left. */
  lemma SecondMoved(s: State, resourceId: Id, partyId: Id, i: nat, j: nat)
    requires Linked(s) && IsResource(s, resourceId) && IsParty(s, partyId)
    requires i < j < |s[resourceId].acl|
    requires Joins(s, s[resourceId].acl[i], partyId, resourceId) && Joins(s, s[resourceId].acl[j], partyId, resourceId)
    ensures var ids := s[resourceId].acl; var t := RemoveEntry(s, ids[i]);
      && IsResource(t, resourceId) && IsParty(t, partyId) && Joins(t, ids[j], partyId, resourceId)
      && |t[resourceId].acl| == |ids| - 1 && t[resourceId].acl[j - 1] == ids[j]
  {
    AfterFirst(s, resourceId, i);
    var ids := s[resourceId].acl;
    assert RemoveAt(i, ids)[j - 1] == ids[j];
  }

  /** Between the two nothing changes. */
  lemma BetweenKept(s: State, resourceId: Id, partyId: Id, i: nat, j: nat)
    requires Linked(s) && IsResource(s, resourceId) && IsParty(s, partyId)
    requires i < j < |s[resourceId].acl| && Joins(s, s[resourceId].acl[i], partyId, resourceId)
    requires forall k :: i < k < j ==> IsEntry(s, s[resourceId].acl[k]) && s[s[resourceId].acl[k]].partyId != partyId
    ensures var ids := s[resourceId].acl; var t := RemoveEntry(s, ids[i]);
      forall k :: i < k < j ==> IsEntry(t, ids[k]) && t[ids[k]].partyId != partyId
  {
    AfterFirst(s, resourceId, i);
  }

  /**
  Once one entry is removed, the positions of the copy are off by one: when the loop reaches the second entry, its
  id stands one position to the left.
  */
  lemma ReachSecond(s: State, resourceId: Id, partyId: Id, i: nat, j: nat)
    requires Linked(s) && IsResource(s, resourceId) && IsParty(s, partyId)
    requires i < j < |s[resourceId].acl|
    requires Joins(s, s[resourceId].acl[i], partyId, resourceId) && Joins(s, s[resourceId].acl[j], partyId, resourceId)
    requires forall k :: i < k < j ==> IsEntry(s, s[resourceId].acl[k]) && s[s[resourceId].acl[k]].partyId != partyId
    ensures var ids := s[resourceId].acl; var t := RemoveEntry(s, ids[i]);
      && IsResource(t, resourceId) && IsParty(t, partyId) && Joins(t, ids[j], partyId, resourceId)
      && |t[resourceId].acl| == |ids| - 1 && t[resourceId].acl[j - 1] == ids[j]
      && DeleteAccessFrom(s, resourceId, partyId, ids, i) == DeleteAccessFrom(t, resourceId, partyId, ids, j)
  {
    var ids := s[resourceId].acl;
    SecondMoved(s, resourceId, partyId, i, j);
    BetweenKept(s, resourceId, partyId, i, j);
    DeleteAccessStep(s, resourceId, partyId, i);
    SkipOthers(RemoveEntry(s, ids[i]), resourceId, partyId, ids, i + 1, j);
  }

  /**
  deleteAccess succeeds and leaves the two indexes linked exactly when the pair has at most one entry. With two,
  the loop removes the second one by the position it had before the first was removed.
  */
  lemma DeleteAccessLinkedIff(s: State, resourceId: Id, partyId: Id)
    requires Linked(s) && IsResource(s, resourceId) && IsParty(s, partyId)
    ensures var o := DeleteAccess(s, resourceId, partyId);
      o.ok && Linked(o.state) <==> AtMostOneEntry(s, partyId, resourceId)
  {
    if AtMostOneEntry(s, partyId, resourceId) {
      if e :| Joins(s, e, partyId, resourceId) {
        DeleteAccessOne(s, e);
        RemoveEntryLinked(s, e);
      } else {
        DeleteAccessNone(s, resourceId, partyId);
      }
    } else {
      var ids := s[resourceId].acl;
      var a, b :| Joins(s, a, partyId, resourceId) && Joins(s, b, partyId, resourceId) && a != b;
      var ia := PositionOf(s, a);
      var ib := PositionOf(s, b);
      var i := NextMatch(s, resourceId, partyId, 0);
      assert i <= ia && i <= ib;
      var j := NextMatch(s, resourceId, partyId, i + 1);
      assert j <= ia || j <= ib;
      SkipOthers(s, resourceId, partyId, ids, 0, i);
      ReachSecond(s, resourceId, partyId, i, j);
      MovedIdLeftBehind(RemoveEntry(s, ids[i]), resourceId, partyId, ids, j);
    }
  }
}
