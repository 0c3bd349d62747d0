/** deleteAllAccessToResource: the loop over the resource's list clears exactly the entries of that resource. */
module ClearProofs {
  import opened Basics
  import opened ObjectStore
  import opened Access
  import opened AccessProofs

  /** Clearing keeps the two indexes linked and removes from the matrix the pairs of the cleared resources. */
  lemma ClearedLists(s: State, rs: set<Id>)
    requires Linked(s)
    ensures var t := Cleared(s, rs);
      && (forall x {:trigger HasAcl(t, x)} :: HasAcl(t, x) <==> HasAcl(s, x))
      && (forall x {:trigger HasAcl(t, x)} :: HasAcl(t, x) ==> NoDup(t[x].acl))
      && (forall x, e {:trigger InAcl(t, x, e)} :: InAcl(t, x, e) <==> InAcl(s, x, e) && e !in EntriesOf(s, rs))
  {
    var t, dead := Cleared(s, rs), EntriesOf(s, rs);
    forall x ensures HasAcl(t, x) <==> HasAcl(s, x) { }
    forall x | HasAcl(t, x) ensures NoDup(t[x].acl) {
      assert HasAcl(s, x);
      if IsParty(s, x) { WithoutNoDup(s[x].acl, dead); }
    }
    forall x, e ensures InAcl(t, x, e) <==> InAcl(s, x, e) && e !in dead {
      if InAcl(s, x, e) { assert IsEntry(s, e); }
      if IsParty(s, x) { WithoutMembers(s[x].acl, dead); }
    }
  }

  lemma ClearedLinked(s: State, rs: set<Id>)
    requires Linked(s)
    ensures Linked(Cleared(s, rs)) && EntriesWithout(s, Cleared(s, rs), EntriesOf(s, rs))
  {
    var t := Cleared(s, rs);
    ClearedLists(s, rs);
    forall e | IsEntry(t, e)
      ensures && IsResource(t, t[e].resourceId) && InAcl(t, t[e].resourceId, e)
              && IsParty(t, t[e].partyId) && InAcl(t, t[e].partyId, e)
    {
      assert IsEntry(s, e);
    }
  }

  /** The pairs of the resources in `rs`. */
  function PairsOf(s: State, rs: set<Id>): set<(Id, Id)> {
    set e | e in EntriesOf(s, rs) :: (s[e].partyId, s[e].resourceId)
  }

  lemma ClearedConsistent(s: State, rs: set<Id>)
    requires Consistent(s)
    ensures var t := Cleared(s, rs);
      && Consistent(t)
      && (forall p, r :: (p, r) in MatrixOf(t) <==> (p, r) in MatrixOf(s) && r !in rs)
      && (forall p, r :: (p, r) in MatrixOf(t) ==> MatrixOf(t)[(p, r)] == MatrixOf(s)[(p, r)])
  {
    var t := Cleared(s, rs);
    ClearedLinked(s, rs);
    EntriesWithoutKeepsOnePerPair(s, t, EntriesOf(s, rs));
    forall e | IsEntry(s, e) ensures e in EntriesOf(s, rs) <==> (s[e].partyId, s[e].resourceId) in PairsOf(s, rs) {
    }
    MatrixOfRemoval(s, t, EntriesOf(s, rs), PairsOf(s, rs));
    forall p, r | (p, r) in MatrixOf(s) ensures (p, r) in PairsOf(s, rs) <==> r in rs {
      MatrixFacts(s);
      var e :| Joins(s, e, p, r);
      assert e in EntriesOf(s, rs) <==> r in rs;
    }
  }

  /** The state with the given entries taken out of the store and out of the parties' lists. */
  function Detached(s: State, dead: set<Id>): State {
    map x | x in s && !(x in dead && IsEntry(s, x)) ::
      if IsParty(s, x) then WithAcl(s[x], Without(s[x].acl, dead)) else s[x]
  }

  /** What the loop needs of the parties' lists; it still holds while resources list deleted entries. */
  ghost predicate PartySide(s: State) {
    && (forall e {:trigger IsEntry(s, e)} :: IsEntry(s, e) ==> IsParty(s, s[e].partyId))
    && (forall p, e {:trigger InAcl(s, p, e)} ::
          InAcl(s, p, e) && IsParty(s, p) && IsEntry(s, e) ==> s[e].partyId == p)
    && (forall p {:trigger HasAcl(s, p)} :: HasAcl(s, p) && IsParty(s, p) ==> NoDup(s[p].acl))
  }

  lemma DetachPartySide(s: State, e: Id)
    requires PartySide(s) && IsEntry(s, e)
    ensures PartySide(Detach(s, s[e].partyId, e))
  {
    var p := s[e].partyId;
    var t := Detach(s, p, e);
    assert HasAcl(s, p);
    RemoveFromFacts(e, s[p].acl);
    forall x, y | InAcl(t, x, y) && IsParty(t, x) && IsEntry(t, y) ensures t[y].partyId == x {
      assert InAcl(s, x, y) && IsEntry(s, y);
    }
    forall x | HasAcl(t, x) && IsParty(t, x) ensures NoDup(t[x].acl) { assert HasAcl(s, x); }
    forall y | IsEntry(t, y) ensures IsParty(t, t[y].partyId) { assert IsEntry(s, y); }
  }

  lemma DetachedOneMore(s: State, e: Id, rest: set<Id>)
    requires PartySide(s) && IsEntry(s, e) && e !in rest
    ensures Detached(Detach(s, s[e].partyId, e), rest) == Detached(s, {e} + rest)
  {
    var p := s[e].partyId;
    var t := Detach(s, p, e);
    assert HasAcl(s, p);
    RemoveFromIsWithout(e, s[p].acl);
    WithoutTwice(s[p].acl, {e}, rest);
    forall q | IsParty(s, q) && q != p ensures Without(s[q].acl, rest) == Without(s[q].acl, {e} + rest) {
      if e in s[q].acl { assert InAcl(s, q, e); }
      WithoutSame(s[q].acl, rest, {e} + rest);
    }
  }

  lemma {:induction false} DetachAllIsDetached(s: State, ids: seq<Id>)
    requires PartySide(s) && NoDup(ids) && forall e :: e in ids ==> IsEntry(s, e)
    ensures DetachAll(s, ids) == Outcome(Detached(s, set e | e in ids), true)
  {
    if ids == [] {
      forall q | IsParty(s, q) ensures Without(s[q].acl, {}) == s[q].acl { WithoutNothing(s[q].acl, {}); }
      assert Detached(s, {}) == s;
      assert (set e | e in ids) == {};
    } else {
      var e := ids[0];
      DetachPartySide(s, e);
      forall x | x in ids[1..] ensures x != e && IsEntry(Detach(s, s[e].partyId, e), x) { assert x in ids; }
      DetachAllIsDetached(Detach(s, s[e].partyId, e), ids[1..]);
      DetachedOneMore(s, e, set x | x in ids[1..]);
      assert (set x | x in ids) == {e} + set x | x in ids[1..];
    }
  }

  /** deleteAllAccessToResource succeeds on linked lists, and clears the resource. */
  lemma DeleteAllAccessClears(s: State, resourceId: Id)
    requires Linked(s) && IsResource(s, resourceId)
    ensures DeleteAllAccess(s, resourceId) == Outcome(Cleared(s, {resourceId}), true)
  {
    var ids := s[resourceId].acl;
    assert HasAcl(s, resourceId);
    forall e | e in ids ensures IsEntry(s, e) { assert InAcl(s, resourceId, e); }
    DetachAllIsDetached(s, ids);
    ClearedOne(s, resourceId);
  }

  lemma ClearedOne(s: State, resourceId: Id)
    requires Linked(s) && IsResource(s, resourceId)
    ensures var t := Detached(s, set e | e in s[resourceId].acl);
      IsResource(t, resourceId) && Cleared(s, {resourceId}) == t[resourceId := WithAcl(t[resourceId], [])]
  {
    ListIsEntries(s, resourceId);
  }

  /** What a resource lists are its entries. */
  lemma ListIsEntries(s: State, resourceId: Id)
    requires Linked(s) && IsResource(s, resourceId)
    ensures EntriesOf(s, {resourceId}) == set e | e in s[resourceId].acl
  {
    forall e ensures e in EntriesOf(s, {resourceId}) <==> e in s[resourceId].acl {
      var listed, entry := InAcl(s, resourceId, e), IsEntry(s, e);
    }
  }
}
