/**
The access operations as the client runs them, on the objects of the store. Each method is proved to do to the
records what the function of the same name in `Access`, `Authorization` or `Deactivation` says.
*/
module AccessMethods {
  import opened Basics
  import opened ObjectStore
  import opened Access
  import opened Authorization

  /** The objects other than ACL entries are where they were. */
  ghost predicate KeepsObjects(before: map<Id, Object>, after: map<Id, Object>) {
    forall x {:trigger before[x]} :: x in before && !before[x].EntryObj? ==>
      x in after && after[x] == before[x]
  }

  /** What is left of a map by id: the values of the ids that are still live, unchanged. */
  ghost predicate Survivors<V>(before: map<Id, V>, after: map<Id, V>, s: State) {
    && (forall x {:trigger x in after} :: x in after <==> x in before && x in s)
    && (forall x {:trigger after[x]} :: x in after ==> after[x] == before[x])
  }

  /** Objects are only deleted, and the entries that are left are the same objects with the same mask arrays. */
  twostate predicate OnlyDeletes(db: InMemClient)
    reads db
  {
    Survivors(old(db.objects), db.objects, db.state) && Survivors(old(db.cells), db.cells, db.state)
  }

  /** party.getACLEntryForResourceId: the entry found, or none, and whether the last lookup failed. */
  method GetACLEntryForResourceId(db: InMemClient, party: Party, resourceId: Id)
    returns (entry: Option<ACLEntry>, failed: bool)
    requires db.Valid() && db.LiveParty(party)
    ensures match FindEntry(db.state, party.acl, resourceId, false)
            case Found(e) => entry.Some? && !failed && db.LiveEntry(entry.value) && entry.value.id == e && IsEntry(db.state, e)
            case Absent => entry.None? && !failed
            case Failed => entry.None? && failed
  {
    failed := false;
    var i := 0;
    while i < |party.acl|
      invariant 0 <= i <= |party.acl|
      invariant FindEntry(db.state, party.acl, resourceId, false) == FindEntry(db.state, party.acl[i..], resourceId, failed)
    {
      var e := db.GetACLEntry(party.acl[i]);
      if e.Err? {
        failed := true;
      } else if e.value.resourceId == resourceId {
        return Some(e.value), false;
      } else {
        failed := false;
      }
      i := i + 1;
    }
    entry := None;
  }

  /** NewInMemACLEntry: an entry under a new id, holding the caller's mask array. */
  method NewInMemACLEntry(db: InMemClient, resourceId: Id, partyId: Id, mask: array<bool>) returns (entry: ACLEntry)
    requires db.Valid() && mask.Length == MASK_LENGTH
    modifies db
    ensures db.Valid() && fresh(db.Repr - old(db.Repr)) && KeepsObjects(old(db.objects), db.objects)
    ensures fresh(entry) && entry.id == old(db.uniqueId) + 1 == db.uniqueId && entry.id !in old(db.state)
    ensures db.state == old(db.state)[entry.id := EntryRec(resourceId, partyId, mask[..])]
    ensures db.cells == old(db.cells)[entry.id := mask]
    ensures db.objects == old(db.objects)[entry.id := EntryObj(entry)] && entry.id !in old(db.objects)
    ensures db.userIds == old(db.userIds)
  {
    var id := db.CreateUniqueDbObjectId();
    entry := new ACLEntry(id, resourceId, partyId, mask);
    db.StoreEntry(entry);
  }

  /** dbCreateACLEntry: the entry, then the resource's list, then the party's list. */
  method DbCreateACLEntry(db: InMemClient, resourceId: Id, partyId: Id, mask: array<bool>) returns (ok: bool)
    requires db.Valid() && mask.Length == MASK_LENGTH
    modifies db, db.Repr
    ensures db.Valid() && fresh(db.Repr - old(db.Repr)) && KeepsObjects(old(db.objects), db.objects)
    ensures Outcome(db.state, ok) == CreateEntry(old(db.state), resourceId, partyId, mask[..], old(db.uniqueId) + 1)
    ensures db.cells == if ok then old(db.cells)[old(db.uniqueId) + 1 := mask] else old(db.cells)
    ensures db.uniqueId == if ok then old(db.uniqueId) + 1 else old(db.uniqueId)
    ensures db.userIds == old(db.userIds) && mask[..] == old(mask[..])
  {
    var resource := db.GetResource(resourceId);
    if resource.Err? { return false; }
    var party := db.GetParty(partyId);
    if party.Err? { return false; }
    CreateLinked(db, resource.value, party.value, mask);
    ok := true;
  }

  /** dbCreateACLEntry behind its two lookups. */
  method CreateLinked(db: InMemClient, resource: Resource, party: Party, mask: array<bool>)
    requires db.Valid() && db.LiveResource(resource) && db.LiveParty(party) && mask.Length == MASK_LENGTH
    modifies db, resource`acl, party`acl
    ensures db.Valid() && fresh(db.Repr - old(db.Repr)) && KeepsObjects(old(db.objects), db.objects)
    ensures Outcome(db.state, true)
         == CreateEntry(old(db.state), resource.id, party.id, mask[..], old(db.uniqueId) + 1)
    ensures db.cells == old(db.cells)[old(db.uniqueId) + 1 := mask]
    ensures db.uniqueId == old(db.uniqueId) + 1 && db.userIds == old(db.userIds)
  {
    var entry := NewInMemACLEntry(db, resource.id, party.id, mask);
    assert db.LiveResource(resource) && db.LiveParty(party);
    LinkEntry(db, resource, party, entry.id);
  }

  /** The end of dbCreateACLEntry: the new id goes into both lists. */
  method LinkEntry(db: InMemClient, resource: Resource, party: Party, id: Id)
    requires db.Valid() && db.LiveResource(resource) && db.LiveParty(party)
    modifies db`state, resource`acl, party`acl
    ensures db.Valid() && IsResource(old(db.state), resource.id) && IsParty(old(db.state), party.id)
    ensures var s := old(db.state);
      db.state == s[resource.id := WithAcl(s[resource.id], s[resource.id].acl + [id])]
                   [party.id := WithAcl(s[party.id], s[party.id].acl + [id])]
  {
    assert db.objects[resource.id].resource == resource && db.objects[party.id].party == party;
    db.SetResourceAcl(resource, resource.acl + [id]);
    db.SetPartyAcl(party, party.acl + [id]);
  }

  /** setAccess behind its search. */
  method SetFound(db: InMemClient, resource: Resource, party: Party, entry: Option<ACLEntry>, mask: array<bool>)
    returns (ok: bool)
    requires db.Valid() && db.LiveResource(resource) && db.LiveParty(party) && mask.Length == MASK_LENGTH
    requires entry.Some? ==> db.LiveEntry(entry.value) && IsEntry(db.state, entry.value.id)
    modifies db, db.Repr
    ensures db.Valid() && fresh(db.Repr - old(db.Repr)) && KeepsObjects(old(db.objects), db.objects)
    ensures var s, newId := old(db.state), old(db.uniqueId) + 1;
      Outcome(db.state, ok) ==
        match entry
        case None => CreateEntry(s, resource.id, party.id, mask[..], newId)
        case Some(e) => Outcome(s[e.id := s[e.id].(mask := mask[..])], true)
    ensures ok ==> db.cells == old(db.cells)[if entry.Some? then entry.value.id else old(db.uniqueId) + 1 := mask]
    ensures db.userIds == old(db.userIds)
  {
    if entry.None? {
      ok := DbCreateACLEntry(db, resource.id, party.id, mask);
    } else {
      db.SetMask(entry.value, mask);
      ok := true;
    }
  }

  method SetAccess(db: InMemClient, resource: Resource, party: Party, mask: array<bool>) returns (ok: bool)
    requires db.Valid() && db.LiveResource(resource) && db.LiveParty(party) && mask.Length == MASK_LENGTH
    modifies db, db.Repr
    ensures db.Valid() && fresh(db.Repr - old(db.Repr)) && KeepsObjects(old(db.objects), db.objects)
    ensures IsParty(old(db.state), party.id)
    ensures Outcome(db.state, ok)
         == Access.SetAccess(old(db.state), resource.id, party.id, mask[..], old(db.uniqueId) + 1)
    ensures var f := FindEntry(old(db.state), old(db.state)[party.id].acl, resource.id, false);
      ok ==> db.cells == old(db.cells)[if f.Found? then f.id else old(db.uniqueId) + 1 := mask]
    ensures db.userIds == old(db.userIds)
  {
    assert db.objects[party.id].party == party && db.objects[resource.id].resource == resource;
    ghost var f := FindEntry(db.state, db.state[party.id].acl, resource.id, false);
    var entry, failed := GetACLEntryForResourceId(db, party, resource.id);
    assert f == if failed then Failed else if entry.None? then Absent else Found(entry.value.id);
    if failed { return false; }
    ok := SetFound(db, resource, party, entry, mask);
  }

  lemma ValidSized(db: InMemClient)
    requires db.Valid()
    ensures Sized(db.state)
  {
    forall x | IsEntry(db.state, x) ensures |db.state[x].mask| == MASK_LENGTH {
      assert db.objects[x].entry.mask == db.cells[x];
    }
  }

  /** The loop of addAccess over the current mask; `mask` may be the same array. */
  method OrInto(curmask: array<bool>, mask: array<bool>)
    requires curmask.Length <= mask.Length
    modifies curmask
    ensures curmask[..] == Or(old(curmask[..]), old(mask[..]))
  {
    var index := 0;
    while index < curmask.Length
      invariant 0 <= index <= curmask.Length
      invariant forall k :: 0 <= k < index ==> curmask[k] == (old(curmask[k]) || old(mask[k]))
      invariant forall k :: index <= k < curmask.Length ==> curmask[k] == old(curmask[k])
      invariant mask != curmask ==> mask[..] == old(mask[..])
    {
      curmask[index] := curmask[index] || mask[index];
      index := index + 1;
    }
  }

  /** How an entry looks after the array that another one holds has been edited. */
  lemma SharedView(db: InMemClient, e: ACLEntry, entry: ACLEntry, was: seq<bool>, added: seq<bool>)
    requires Sized(db.state) && |added| == MASK_LENGTH == |was| && e.mask[..] == Or(was, added)
    requires e.id in db.cells && db.cells[e.id] == e.mask && entry.id in db.cells && db.cells[entry.id] == entry.mask
    requires entry.id in db.state
      && db.state[entry.id]
         == EntryRec(entry.resourceId, entry.partyId, if entry.mask == e.mask then was else entry.mask[..])
    ensures OrShared(db.state, db.cells, e.id, added)[entry.id] == entry.View()
  {
    assert Shares(db.cells, entry.id, e.id) <==> entry.mask == e.mask;
  }

  /** Editing the mask of an entry in place: every entry that holds the same array changes with it. */
  method EditMask(db: InMemClient, e: ACLEntry, mask: array<bool>)
    requires db.Valid() && db.LiveEntry(e) && mask.Length == MASK_LENGTH
    modifies e.mask, db`state
    ensures db.Valid() && Sized(old(db.state))
    ensures db.state == OrShared(old(db.state), db.cells, e.id, old(mask[..]))
  {
    assert db.objects[e.id].entry == e;
    ghost var s, was, added := db.state, e.mask[..], mask[..];
    ValidSized(db);
    OrInto(e.mask, mask);
    forall x | x in db.objects && db.objects[x].EntryObj?
      ensures x in s && OrShared(s, db.cells, e.id, added)[x] == db.objects[x].entry.View()
    {
      SharedView(db, e, db.objects[x].entry, was, added);
    }
    db.state := OrShared(s, db.cells, e.id, added);
    forall x | x in db.objects ensures db.Stored(x, db.objects[x]) {
      assert old(db.Stored(x, db.objects[x]));
    }
  }

  /** addAccess on an entry that exists: edit its mask in place, then set the same array again. */
  method OrIntoEntry(db: InMemClient, e: ACLEntry, mask: array<bool>)
    requires db.Valid() && db.LiveEntry(e) && mask.Length == MASK_LENGTH
    modifies e`mask, e.mask, db`state, db`cells
    ensures db.Valid() && Sized(old(db.state)) && db.cells == old(db.cells)
    ensures db.state == OrShared(old(db.state), db.cells, e.id, old(mask[..]))
  {
    assert db.objects[e.id].entry == e;
    var curmask := e.mask;
    EditMask(db, e, mask);
    SetSameMask(db, e, curmask);
  }

  /** Setting the array that an entry holds already. */
  method SetSameMask(db: InMemClient, e: ACLEntry, mask: array<bool>)
    requires db.Valid() && db.LiveEntry(e) && mask == e.mask
    modifies e`mask, db`state, db`cells
    ensures db.Valid() && db.state == old(db.state) && db.cells == old(db.cells) && e.mask == old(e.mask)
  {
    assert db.objects[e.id].entry == e;
    db.SetMask(e, mask);
  }

  /** addAccess behind its search. */
  method AddFound(db: InMemClient, resource: Resource, party: Party, entry: Option<ACLEntry>, mask: array<bool>)
    returns (ok: bool)
    requires db.Valid() && db.LiveResource(resource) && db.LiveParty(party) && mask.Length == MASK_LENGTH
    requires entry.Some? ==> db.LiveEntry(entry.value)
    modifies db, db.Repr, db.cells.Values
    ensures db.Valid() && fresh(db.Repr - old(db.Repr)) && KeepsObjects(old(db.objects), db.objects)
    ensures Sized(old(db.state))
    ensures var s, newId := old(db.state), old(db.uniqueId) + 1;
      Outcome(db.state, ok) ==
        match entry
        case None => CreateEntry(s, resource.id, party.id, old(mask[..]), newId)
        case Some(e) => Outcome(OrShared(s, old(db.cells), e.id, old(mask[..])), true)
    ensures ok ==> db.cells == if entry.Some? then old(db.cells) else old(db.cells)[old(db.uniqueId) + 1 := mask]
    ensures db.userIds == old(db.userIds)
  {
    ValidSized(db);
    if entry.None? {
      ok := DbCreateACLEntry(db, resource.id, party.id, mask);
    } else {
      assert db.objects[entry.value.id].entry == entry.value;
      OrIntoEntry(db, entry.value, mask);
      ok := true;
    }
  }

  method AddAccess(db: InMemClient, resource: Resource, party: Party, mask: array<bool>) returns (ok: bool)
    requires db.Valid() && db.LiveResource(resource) && db.LiveParty(party) && mask.Length == MASK_LENGTH
    modifies db, db.Repr, db.cells.Values
    ensures db.Valid() && fresh(db.Repr - old(db.Repr)) && KeepsObjects(old(db.objects), db.objects)
    ensures IsParty(old(db.state), party.id) && Sized(old(db.state))
    ensures Outcome(db.state, ok)
         == Access.AddAccess(old(db.state), old(db.cells), resource.id, party.id, old(mask[..]), old(db.uniqueId) + 1)
    ensures var f := FindEntry(old(db.state), old(db.state)[party.id].acl, resource.id, false);
      ok ==> db.cells == if f.Found? then old(db.cells) else old(db.cells)[old(db.uniqueId) + 1 := mask]
    ensures db.userIds == old(db.userIds)
  {
    assert db.objects[party.id].party == party && db.objects[resource.id].resource == resource;
    ValidSized(db);
    ghost var f := FindEntry(db.state, db.state[party.id].acl, resource.id, false);
    var entry, failed := GetACLEntryForResourceId(db, party, resource.id);
    assert f == if failed then Failed else if entry.None? then Absent else Found(entry.value.id);
    if failed { return false; }
    ok := AddFound(db, resource, party, entry, mask);
  }

  /** deleteACLEntryForParty: the id leaves the party's list and the entry leaves the store. */
  method DeleteACLEntryForParty(db: InMemClient, party: Party, entry: ACLEntry)
    requires db.Valid() && db.LiveParty(party) && db.LiveEntry(entry)
    modifies party`acl, db`state, db`objects, db`cells
    ensures db.Valid() && KeepsObjects(old(db.objects), db.objects)
    ensures IsParty(old(db.state), party.id) && IsEntry(old(db.state), entry.id)
    ensures db.state == Detach(old(db.state), party.id, entry.id)
    ensures db.objects == old(db.objects) - {entry.id} && db.cells == old(db.cells) - {entry.id}
  {
    assert db.objects[party.id].party == party && db.objects[entry.id].entry == entry;
    ghost var s := db.state;
    db.SetPartyAcl(party, RemoveFrom(entry.id, party.acl));
    assert db.state - {entry.id} == Detach(s, party.id, entry.id);
    db.DeleteObject(entry.id);
  }

  /** One turn of the loop of deleteAccess; false when it returns an error. */
  method DeleteAccessTurn(db: InMemClient, resource: Resource, party: Party, id: Id, index: nat) returns (ok: bool)
    requires db.Valid() && db.LiveResource(resource) && db.LiveParty(party)
    modifies db`state, db`objects, db`cells, resource`acl, party`acl
    ensures db.Valid() && db.LiveResource(resource) && db.LiveParty(party)
    ensures KeepsObjects(old(db.objects), db.objects)
    ensures IsResource(old(db.state), resource.id) && IsParty(old(db.state), party.id)
    ensures OnlyDeletes(db)
    ensures Outcome(db.state, ok) == Access.DeleteAccessTurn(old(db.state), resource.id, party.id, id, index)
  {
    assert db.objects[party.id].party == party && db.objects[resource.id].resource == resource;
    var entry := db.GetACLEntry(id);
    if entry.Err? { return false; }
    if entry.value.partyId != party.id { return true; }
    if entry.value.resourceId != resource.id { return false; }
    ok := RemoveFound(db, resource, party, entry.value, index);
  }

  /** The part of that turn behind its checks; the entry is deleted twice. */
  method RemoveFound(db: InMemClient, resource: Resource, party: Party, entry: ACLEntry, index: nat) returns (ok: bool)
    requires db.Valid() && db.LiveResource(resource) && db.LiveParty(party) && db.LiveEntry(entry)
    modifies db`state, db`objects, db`cells, resource`acl, party`acl
    ensures db.Valid() && db.LiveResource(resource) && db.LiveParty(party)
    ensures IsParty(old(db.state), party.id) && IsEntry(old(db.state), entry.id)
    ensures db.objects == old(db.objects) - {entry.id} && db.cells == old(db.cells) - {entry.id}
    ensures var t := Detach(old(db.state), party.id, entry.id);
      && IsResource(t, resource.id)
      && Outcome(db.state, ok) ==
           if index >= |t[resource.id].acl| then Outcome(t, false)
           else Outcome(t[resource.id := WithAcl(t[resource.id], RemoveAt(index, t[resource.id].acl))], true)
  {
    assert db.objects[party.id].party == party && db.objects[resource.id].resource == resource;
    DeleteACLEntryForParty(db, party, entry);
    ok := RemoveIdAt(db, resource, index);
    if ok { DeleteAgain(db, entry.id); }
  }

  /** Deleting what is not in the store. */
  method DeleteAgain(db: InMemClient, id: Id)
    requires db.Valid() && id !in db.state
    modifies db`state, db`objects, db`cells
    ensures db.Valid() && db.state == old(db.state) && db.objects == old(db.objects) && db.cells == old(db.cells)
  {
    db.DeleteObject(id);
  }

  /** The id at that position leaves the resource's list, if the list is that long. */
  method RemoveIdAt(db: InMemClient, resource: Resource, index: nat) returns (ok: bool)
    requires db.Valid() && db.LiveResource(resource)
    modifies db`state, resource`acl
    ensures db.Valid() && IsResource(old(db.state), resource.id)
    ensures var s := old(db.state); var acl := s[resource.id].acl;
      Outcome(db.state, ok) == if index >= |acl| then Outcome(s, false)
                               else Outcome(s[resource.id := WithAcl(s[resource.id], RemoveAt(index, acl))], true)
  {
    assert db.objects[resource.id].resource == resource;
    if index >= |resource.acl| { return false; }
    db.SetResourceAcl(resource, RemoveAt(index, resource.acl));
    ok := true;
  }

  /** deleteAccess: a position past the end of the list is where the program would stop. */
  method DeleteAccess(db: InMemClient, resource: Resource, party: Party) returns (ok: bool)
    requires db.Valid() && db.LiveResource(resource) && db.LiveParty(party)
    modifies db`state, db`objects, db`cells, resource`acl, party`acl
    ensures db.Valid() && KeepsObjects(old(db.objects), db.objects)
    ensures IsResource(old(db.state), resource.id) && IsParty(old(db.state), party.id)
    ensures OnlyDeletes(db)
    ensures Outcome(db.state, ok) == Access.DeleteAccess(old(db.state), resource.id, party.id)
  {
    assert db.objects[party.id].party == party && db.objects[resource.id].resource == resource;
    var aclEntriesCopy := resource.acl;
    ghost var outcome := Access.DeleteAccess(db.state, resource.id, party.id);
    var index := 0;
    while index < |aclEntriesCopy|
      invariant 0 <= index <= |aclEntriesCopy|
      invariant db.Valid() && db.LiveResource(resource) && db.LiveParty(party)
      invariant KeepsObjects(old(db.objects), db.objects) && OnlyDeletes(db)
      invariant DeleteAccessFrom(db.state, resource.id, party.id, aclEntriesCopy, index) == outcome
    {
      ok := DeleteAccessTurn(db, resource, party, aclEntriesCopy[index], index);
      if !ok { return; }
      index := index + 1;
    }
    ok := true;
  }

  /** One turn of the loop of deleteAllAccessToResource: an entry leaves its party's list and the store. */
  method DetachEntry(db: InMemClient, id: Id) returns (ok: bool)
    requires db.Valid()
    modifies db`state, db`objects, db`cells, db.Repr
    ensures db.Valid() && KeepsObjects(old(db.objects), db.objects) && OnlyDeletes(db) && db.Repr == old(db.Repr)
    ensures var s := old(db.state);
      Outcome(db.state, ok) == if !IsEntry(s, id) || !IsParty(s, s[id].partyId) then Outcome(s, false)
                               else Outcome(Detach(s, s[id].partyId, id), true)
  {
    var entry := db.GetACLEntry(id);
    if entry.Err? { return false; }
    var party := db.GetParty(entry.value.partyId);
    if party.Err? { return false; }
    assert db.objects[party.value.id].party == party.value;
    DeleteACLEntryForParty(db, party.value, entry.value);
    ok := true;
  }

  /** deleteAllAccessToResource */
  method DeleteAllAccessToResource(db: InMemClient, resource: Resource) returns (ok: bool)
    requires db.Valid() && db.LiveResource(resource)
    modifies db`state, db`objects, db`cells, db.Repr
    ensures db.Valid() && KeepsObjects(old(db.objects), db.objects) && db.Repr == old(db.Repr)
    ensures IsResource(old(db.state), resource.id) && OnlyDeletes(db)
    ensures Outcome(db.state, ok) == Access.DeleteAllAccess(old(db.state), resource.id)
  {
    assert db.objects[resource.id].resource == resource;
    var aclEntriesCopy := resource.acl;
    ghost var outcome := DetachAll(db.state, aclEntriesCopy);
    var i := 0;
    while i < |aclEntriesCopy|
      invariant 0 <= i <= |aclEntriesCopy|
      invariant db.Valid() && db.LiveResource(resource) && db.Repr == old(db.Repr)
      invariant KeepsObjects(old(db.objects), db.objects) && OnlyDeletes(db)
      invariant DetachAll(db.state, aclEntriesCopy[i..]) == outcome
    {
      ok := DetachEntry(db, aclEntriesCopy[i]);
      if !ok { return; }
      i := i + 1;
    }
    assert db.objects[resource.id].resource == resource;
    db.SetResourceAcl(resource, []);
    ok := true;
  }

  // ----- auth.go -----

  /** The loop of partyHasAccess that finds the field set in the action mask. */
  method FindAction(actionMask: seq<bool>) returns (action: Action)
    ensures action == ActionOf(actionMask)
  {
    action := NoAction;
    for i := 0 to |actionMask|
      invariant !action.TooMany?
      invariant ActionOf(actionMask) == ActionFrom(actionMask, i, action)
    {
      if actionMask[i] {
        if action != NoAction { return TooMany; }
        action := OneAction(i);
      }
    }
  }

  method PartyHasAccess(db: InMemClient, party: Party, actionMask: seq<bool>, resourceId: Id) returns (d: Decision)
    requires db.Valid() && db.LiveParty(party) && |actionMask| == MASK_LENGTH
    ensures IsParty(db.state, party.id) && Sized(db.state)
    ensures d == Authorization.PartyHasAccess(db.state, party.id, actionMask, resourceId)
  {
    ValidSized(db);
    assert db.objects[party.id].party == party;
    var action := FindAction(actionMask);
    if action.TooMany? { return Failure; }
    if action.NoAction? { return Refused; }
    var entries := party.acl;
    var i := 0;
    while i < |entries|
      invariant 0 <= i <= |entries|
      invariant WalkEntries(db.state, entries, resourceId, action.k) == WalkEntries(db.state, entries[i..], resourceId, action.k)
    {
      var entry := db.GetACLEntry(entries[i]);
      if entry.Err? { return Failure; }
      if entry.value.resourceId == resourceId && entry.value.mask[action.k] { return Allowed; }
      i := i + 1;
    }
    d := Refused;
  }

  /** One turn of the loop of authorized: the resource, then its parent. */
  method PartyCanReach(db: InMemClient, party: Party, actionMask: seq<bool>, resource: Resource) returns (d: Decision)
    requires db.Valid() && db.LiveParty(party) && db.LiveResource(resource) && |actionMask| == MASK_LENGTH
    ensures IsParty(db.state, party.id) && IsResource(db.state, resource.id) && Sized(db.state)
    ensures d == Authorization.PartyCanReach(db.state, party.id, actionMask, resource.id)
  {
    assert db.objects[resource.id].resource == resource;
    d := PartyHasAccess(db, party, actionMask, resource.id);
    if d == Refused && resource.parentId != NO_ID {
      var parent := db.GetResource(resource.parentId);
      if parent.Err? { return Failure; }
      d := PartyHasAccess(db, party, actionMask, parent.value.id);
    }
  }

  /** authorized: the user, then each of the groups that the user belongs to. */
  method Authorized(db: InMemClient, login: Option<string>, actionMask: seq<bool>, resourceId: Id) returns (d: Decision)
    requires db.Valid() && |actionMask| == MASK_LENGTH
    ensures Sized(db.state)
    ensures d == Authorization.Authorized(db.state, db.userIds, login, actionMask, resourceId)
  {
    ValidSized(db);
    if login.None? || login.value !in db.userIds { return Failure; }
    var user := db.GetParty(db.userIds[login.value]);
    if user.Err? || !user.value.kind.UserKind? { return Failure; }
    if user.value.id == resourceId { return Allowed; }
    var action := FindAction(actionMask);
    if action.TooMany? { return Failure; }
    var resource := db.GetResource(resourceId);
    if resource.Err? { return Failure; }
    d := AnyPartyCanReach(db, user.value, user.value.kind.groupIds, actionMask, resource.value);
  }

  /** The loop of authorized. */
  method AnyPartyCanReach(db: InMemClient, user: Party, groupIds: seq<Id>, actionMask: seq<bool>, resource: Resource)
    returns (d: Decision)
    requires db.Valid() && db.LiveParty(user) && db.LiveResource(resource) && |actionMask| == MASK_LENGTH
    ensures IsParty(db.state, user.id) && IsResource(db.state, resource.id) && Sized(db.state)
    ensures d == Authorization.AnyPartyCanReach(db.state, user.id, groupIds, actionMask, resource.id)
  {
    ValidSized(db);
    assert db.objects[user.id].party == user && db.objects[resource.id].resource == resource;
    var party := user;
    var groupIndex := 0;
    while true
      invariant 0 <= groupIndex <= |groupIds| && db.LiveParty(party) && IsParty(db.state, party.id)
      invariant Authorization.AnyPartyCanReach(db.state, user.id, groupIds, actionMask, resource.id)
        == Authorization.AnyPartyCanReach(db.state, party.id, groupIds[groupIndex..], actionMask, resource.id)
      decreases |groupIds| - groupIndex
    {
      d := PartyCanReach(db, party, actionMask, resource);
      if d != Refused || groupIndex == |groupIds| { return; }
      var group := db.GetParty(groupIds[groupIndex]);
      if group.Err? { return Failure; }
      party := group.value;
      groupIndex := groupIndex + 1;
    }
  }
}
