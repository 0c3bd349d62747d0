/**
The persistent objects and the in-memory store that finds them by id.

Each object is a class instance whose fields the code updates in place. A `State` is the plain value the
store holds at one moment: one record for every live id. Every method of the store says what it does to
that value, so the other modules can reason about records only.
*/
module ObjectStore {
  import opened Basics

  /**
  An object id. The program prints the counter value in decimal and uses the text; different values print
  differently (Decimal.TextInjective), so the value stands for the text here. NO_ID is the empty text.
  */
  type Id = int

  const NO_ID: Id := 0

  const MASK_LENGTH: nat := 5

  datatype ResourceKind =
    | RealmKind(userObjIds: seq<Id>, groupIds: seq<Id>, repoIds: seq<Id>)
    | RepoKind(dockerfileIds: seq<Id>, dockerImageIds: seq<Id>, scanConfigIds: seq<Id>, flagIds: seq<Id>)
    | DockerfileKind
    | DockerImageKind(scanConfigsToUse: seq<Id>)
    | ScanConfigKind(parameterValueIds: seq<Id>, flagId: Id, scanEventIds: seq<Id>, dockerImageIdsThatUse: seq<Id>)
    | FlagKind(usedByScanConfigIds: seq<Id>)

  datatype PartyKind =
    | UserKind(userId: string, groupIds: seq<Id>)
    | GroupKind(userObjIds: seq<Id>)

  datatype Record =
    | ResourceRec(name: string, parentId: Id, acl: seq<Id>, resourceKind: ResourceKind)
    | PartyRec(name: string, realmId: Id, isActive: bool, acl: seq<Id>, partyKind: PartyKind)
    | EntryRec(resourceId: Id, partyId: Id, mask: seq<bool>)
    | ScanEventRec(scanConfigId: Id, valueIds: seq<Id>)
    | ParameterRec

  type State = map<Id, Record>

  /** A live id with a record of the given type: what the type assertions of the getters test. */
  predicate IsResource(s: State, id: Id) { id in s && s[id].ResourceRec? }
  predicate IsParty(s: State, id: Id) { id in s && s[id].PartyRec? }
  predicate IsEntry(s: State, id: Id) { id in s && s[id].EntryRec? }
  predicate IsUser(s: State, id: Id) { IsParty(s, id) && s[id].partyKind.UserKind? }
  predicate IsGroup(s: State, id: Id) { IsParty(s, id) && s[id].partyKind.GroupKind? }
  predicate IsRealm(s: State, id: Id) { IsResource(s, id) && s[id].resourceKind.RealmKind? }
  predicate IsRepo(s: State, id: Id) { IsResource(s, id) && s[id].resourceKind.RepoKind? }
  predicate IsDockerfile(s: State, id: Id) { IsResource(s, id) && s[id].resourceKind.DockerfileKind? }
  predicate IsImage(s: State, id: Id) { IsResource(s, id) && s[id].resourceKind.DockerImageKind? }
  predicate IsScanConfig(s: State, id: Id) { IsResource(s, id) && s[id].resourceKind.ScanConfigKind? }
  predicate IsFlag(s: State, id: Id) { IsResource(s, id) && s[id].resourceKind.FlagKind? }
  predicate IsScanEvent(s: State, id: Id) { id in s && s[id].ScanEventRec? }
  predicate IsParameter(s: State, id: Id) { id in s && s[id].ParameterRec? }

  /** The record with another list of ACL entry ids; resources and parties both have one. */
  function WithAcl(rec: Record, acl: seq<Id>): (r: Record)
    requires rec.ResourceRec? || rec.PartyRec?
    ensures r.ResourceRec? == rec.ResourceRec? && r.PartyRec? == rec.PartyRec?
    ensures r.acl == acl
  {
    match rec
    case ResourceRec(n, p, _, k) => ResourceRec(n, p, acl, k)
    case PartyRec(n, m, a, _, k) => PartyRec(n, m, a, acl, k)
  }

  class Resource {
    const id: Id
    var name: string
    var parentId: Id
    var acl: seq<Id>
    var kind: ResourceKind

    constructor (id: Id, name: string, parentId: Id, kind: ResourceKind)
      ensures this.id == id && View() == ResourceRec(name, parentId, [], kind)
    {
      this.id, this.name, this.parentId, this.acl, this.kind := id, name, parentId, [], kind;
    }

    function View(): Record reads this { ResourceRec(name, parentId, acl, kind) }
  }

  class Party {
    const id: Id
    var name: string
    var realmId: Id
    var isActive: bool
    var acl: seq<Id>
    var kind: PartyKind

    constructor (id: Id, name: string, realmId: Id, kind: PartyKind)
      ensures this.id == id && View() == PartyRec(name, realmId, true, [], kind)
    {
      this.id, this.name, this.realmId, this.isActive, this.acl, this.kind := id, name, realmId, true, [], kind;
    }

    function View(): Record reads this { PartyRec(name, realmId, isActive, acl, kind) }
  }

  class ACLEntry {
    const id: Id
    const resourceId: Id
    const partyId: Id
    var mask: array<bool>

    constructor (id: Id, resourceId: Id, partyId: Id, mask: array<bool>)
      ensures this.id == id && this.resourceId == resourceId && this.partyId == partyId && this.mask == mask
    {
      this.id, this.resourceId, this.partyId, this.mask := id, resourceId, partyId, mask;
    }

    function View(): Record reads this, mask { EntryRec(resourceId, partyId, mask[..]) }
  }

  class ScanEvent {
    const id: Id
    var scanConfigId: Id
    var valueIds: seq<Id>         // the actual parameter values

    constructor (id: Id, scanConfigId: Id, valueIds: seq<Id>)
      ensures this.id == id && View() == ScanEventRec(scanConfigId, valueIds)
    {
      this.id, this.scanConfigId, this.valueIds := id, scanConfigId, valueIds;
    }

    function View(): Record reads this { ScanEventRec(scanConfigId, valueIds) }
  }

  class ParameterValue {
    const id: Id

    constructor (id: Id)
      ensures this.id == id
    {
      this.id := id;
    }
  }

  /** A pointer to a persistent object, with its dynamic type. */
  datatype Object =
    | ResourceObj(resource: Resource)
    | PartyObj(party: Party)
    | EntryObj(entry: ACLEntry)
    | EventObj(event: ScanEvent)
    | ParameterObj(parameter: ParameterValue)

  /** The client of the store: InMemClient over an in-memory Persistence. */
  class InMemClient {
    var objects: map<Id, Object>                // allObjects: object id to object
    var userIds: map<string, Id>                // allUserIds: login name to the id of the User object
    var uniqueId: nat                           // the last id handed out
    ghost var state: State                      // the records of the live objects
    ghost var cells: map<Id, array<bool>>       // which array holds the mask of each entry
    ghost var Repr: set<object>                 // the live objects, without the masks

    /** The object stored under an id has that id, and its record is what its fields say. */
    ghost predicate Stored(id: Id, o: Object)
      reads this, Repr, cells.Values
    {
      && id in state && NO_ID < id <= uniqueId
      && match o
         case ResourceObj(r) => r in Repr && r.id == id && state[id] == r.View() && id !in cells
         case PartyObj(p) => p in Repr && p.id == id && state[id] == p.View() && id !in cells
         case EntryObj(e) =>
           && e in Repr && e.id == id && id in cells && e.mask == cells[id] && cells[id].Length == MASK_LENGTH
           && state[id] == e.View()
         case EventObj(v) => v in Repr && v.id == id && state[id] == v.View() && id !in cells
         case ParameterObj(q) => q in Repr && q.id == id && state[id] == ParameterRec && id !in cells
    }

    ghost predicate Valid()
      reads this, Repr, cells.Values
    {
      && state.Keys == objects.Keys && cells.Keys <= objects.Keys
      && forall id {:trigger objects[id]} :: id in objects ==> Stored(id, objects[id])
    }

    constructor ()
      ensures Valid() && state == map[] && userIds == map[] && cells == map[] && Repr == {}
    {
      objects, userIds, uniqueId := map[], map[], 100000005;
      state, cells, Repr := map[], map[], {};
    }

    /** A pointer to the live object of that id. */
    ghost predicate LiveResource(r: Resource)
      reads this
    {
      r.id in objects && objects[r.id] == ResourceObj(r)
    }

    ghost predicate LiveParty(p: Party)
      reads this
    {
      p.id in objects && objects[p.id] == PartyObj(p)
    }

    ghost predicate LiveEntry(e: ACLEntry)
      reads this
    {
      e.id in objects && objects[e.id] == EntryObj(e)
    }

    method GetResource(id: Id) returns (r: Result<Resource>)
      requires Valid()
      ensures r.Ok? <==> IsResource(state, id)
      ensures r.Ok? ==> LiveResource(r.value) && r.value.id == id && state[id] == r.value.View()
    {
      if id in objects && objects[id].ResourceObj? {
        r := Ok(objects[id].resource);
      } else {
        r := Err;
      }
    }

    method GetParty(id: Id) returns (r: Result<Party>)
      requires Valid()
      ensures r.Ok? <==> IsParty(state, id)
      ensures r.Ok? ==> LiveParty(r.value) && r.value.id == id && state[id] == r.value.View()
    {
      if id in objects && objects[id].PartyObj? {
        r := Ok(objects[id].party);
      } else {
        r := Err;
      }
    }

    method GetACLEntry(id: Id) returns (r: Result<ACLEntry>)
      requires Valid()
      ensures r.Ok? <==> IsEntry(state, id)
      ensures r.Ok? ==>
        && LiveEntry(r.value) && r.value.id == id && id in cells && r.value.mask == cells[id]
        && state[id] == EntryRec(r.value.resourceId, r.value.partyId, r.value.mask[..])
    {
      if id in objects && objects[id].EntryObj? {
        r := Ok(objects[id].entry);
      } else {
        r := Err;
      }
    }

    method GetScanEvent(id: Id) returns (r: Result<ScanEvent>)
      requires Valid()
      ensures r.Ok? <==> IsScanEvent(state, id)
      ensures r.Ok? ==>
        && id in objects && objects[id] == EventObj(r.value) && r.value.id == id
        && state[id] == r.value.View()
    {
      if id in objects && objects[id].EventObj? {
        r := Ok(objects[id].event);
      } else {
        r := Err;
      }
    }

    method GetParameterValue(id: Id) returns (r: Result<ParameterValue>)
      requires Valid()
      ensures r.Ok? <==> IsParameter(state, id)
      ensures r.Ok? ==> r.value.id == id && id in objects && objects[id] == ParameterObj(r.value)
    {
      if id in objects && objects[id].ParameterObj? {
        r := Ok(objects[id].parameter);
      } else {
        r := Err;
      }
    }

    method SetResourceAcl(r: Resource, acl: seq<Id>)
      requires Valid() && LiveResource(r)
      modifies r`acl, this`state
      ensures Valid()
      ensures r.id in old(state) && old(state)[r.id].ResourceRec? && r.acl == acl
      ensures state == old(state)[r.id := WithAcl(old(state)[r.id], acl)]
    {
      r.acl := acl;
      state := state[r.id := WithAcl(state[r.id], acl)];
    }

    method SetPartyAcl(p: Party, acl: seq<Id>)
      requires Valid() && LiveParty(p)
      modifies p`acl, this`state
      ensures Valid()
      ensures p.id in old(state) && old(state)[p.id].PartyRec? && p.acl == acl
      ensures state == old(state)[p.id := WithAcl(old(state)[p.id], acl)]
    {
      p.acl := acl;
      state := state[p.id := WithAcl(state[p.id], acl)];
    }

    method SetMask(e: ACLEntry, mask: array<bool>)
      requires Valid() && LiveEntry(e) && mask.Length == MASK_LENGTH
      modifies e`mask, this`state, this`cells
      ensures Valid()
      ensures state == old(state)[e.id := old(state)[e.id].(mask := mask[..])]
      ensures cells == old(cells)[e.id := mask]
    {
      assert objects[e.id].entry == e;
      e.mask, cells := mask, cells[e.id := mask];
      state := state[e.id := e.View()];
      forall x | x in objects ensures Stored(x, objects[x]) {
        assert old(Stored(x, objects[x]));
        assert x != e.id && objects[x].EntryObj? ==> objects[x].entry != e;
      }
    }

    /** persistence.createUniqueDbObjectId */
    method CreateUniqueDbObjectId() returns (id: Id)
      requires Valid()
      modifies this`uniqueId
      ensures Valid() && uniqueId == old(uniqueId) + 1
      ensures id == uniqueId && id !in state
    {
      uniqueId := uniqueId + 1;
      id := uniqueId;
    }

    method StoreEntry(e: ACLEntry)
      requires Valid() && e.id !in objects && NO_ID < e.id <= uniqueId && e !in Repr
      requires e.mask.Length == MASK_LENGTH
      modifies this`objects, this`state, this`cells, this`Repr
      ensures Valid() && LiveEntry(e)
      ensures state == old(state)[e.id := EntryRec(e.resourceId, e.partyId, e.mask[..])]
      ensures cells == old(cells)[e.id := e.mask] && Repr == old(Repr) + {e}
      ensures objects == old(objects)[e.id := EntryObj(e)]
    {
      objects := objects[e.id := EntryObj(e)];
      state := state[e.id := EntryRec(e.resourceId, e.partyId, e.mask[..])];
      cells := cells[e.id := e.mask];
      Repr := Repr + {e};
      forall x | x in objects ensures Stored(x, objects[x]) { assert x != e.id ==> old(Stored(x, objects[x])); }
    }

    method StoreResource(r: Resource)
      requires Valid() && r.id !in objects && NO_ID < r.id <= uniqueId && r !in Repr
      modifies this`objects, this`state, this`Repr
      ensures Valid() && LiveResource(r)
      ensures state == old(state)[r.id := r.View()] && Repr == old(Repr) + {r}
      ensures objects == old(objects)[r.id := ResourceObj(r)]
    {
      objects := objects[r.id := ResourceObj(r)];
      state := state[r.id := r.View()];
      Repr := Repr + {r};
    }

    method StoreScanEvent(e: ScanEvent)
      requires Valid() && e.id !in objects && NO_ID < e.id <= uniqueId && e !in Repr
      modifies this`objects, this`state, this`Repr
      ensures Valid()
      ensures state == old(state)[e.id := e.View()] && Repr == old(Repr) + {e}
      ensures objects == old(objects)[e.id := EventObj(e)]
    {
      objects := objects[e.id := EventObj(e)];
      state := state[e.id := e.View()];
      Repr := Repr + {e};
    }

    method SetScanConfigId(e: ScanEvent, scanConfigId: Id)
      requires Valid() && e.id in objects && objects[e.id] == EventObj(e)
      modifies e`scanConfigId, this`state
      ensures Valid() && e.id in old(state) && old(state)[e.id].ScanEventRec?
      ensures state == old(state)[e.id := old(state)[e.id].(scanConfigId := scanConfigId)]
    {
      assert objects[e.id].event == e;
      e.scanConfigId := scanConfigId;
      state := state[e.id := e.View()];
    }

    method StoreParameter(q: ParameterValue)
      requires Valid() && q.id !in objects && NO_ID < q.id <= uniqueId && q !in Repr
      modifies this`objects, this`state, this`Repr
      ensures Valid()
      ensures state == old(state)[q.id := ParameterRec] && Repr == old(Repr) + {q}
      ensures objects == old(objects)[q.id := ParameterObj(q)]
    {
      objects := objects[q.id := ParameterObj(q)];
      state := state[q.id := ParameterRec];
      Repr := Repr + {q};
    }

    method SetResourceKind(r: Resource, kind: ResourceKind)
      requires Valid() && LiveResource(r)
      modifies r`kind, this`state
      ensures Valid()
      ensures state == old(state)[r.id := old(state)[r.id].(resourceKind := kind)]
    {
      r.kind := kind;
      state := state[r.id := state[r.id].(resourceKind := kind)];
    }

    method SetActive(p: Party, b: bool)
      requires Valid() && LiveParty(p)
      modifies p`isActive, this`state
      ensures Valid()
      ensures state == old(state)[p.id := old(state)[p.id].(isActive := b)]
    {
      assert objects[p.id].party == p;
      p.isActive := b;
      state := state[p.id := state[p.id].(isActive := b)];
    }

    method SetRealmId(p: Party, realmId: Id)
      requires Valid() && LiveParty(p)
      modifies p`realmId, this`state
      ensures Valid() && p.id in old(state) && old(state)[p.id].PartyRec?
      ensures var rec := old(state)[p.id];
        state == old(state)[p.id := PartyRec(rec.name, realmId, rec.isActive, rec.acl, rec.partyKind)]
    {
      assert objects[p.id].party == p;
      p.realmId := realmId;
      state := state[p.id := p.View()];
    }

    method SetPartyKind(p: Party, kind: PartyKind)
      requires Valid() && LiveParty(p)
      modifies p`kind, this`state
      ensures Valid() && p.id in old(state) && old(state)[p.id].PartyRec?
      ensures state == old(state)[p.id := old(state)[p.id].(partyKind := kind)]
    {
      assert objects[p.id].party == p;
      p.kind := kind;
      state := state[p.id := p.View()];
    }

    method StoreParty(p: Party)
      requires Valid() && p.id !in objects && NO_ID < p.id <= uniqueId && p !in Repr
      modifies this`objects, this`state, this`Repr
      ensures Valid() && LiveParty(p)
      ensures state == old(state)[p.id := p.View()] && Repr == old(Repr) + {p}
      ensures objects == old(objects)[p.id := PartyObj(p)]
    {
      objects := objects[p.id := PartyObj(p)];
      state := state[p.id := p.View()];
      Repr := Repr + {p};
    }

    /** client.addUser: the object under its id, and the id under the login name. */
    method StoreUser(p: Party, login: string)
      requires Valid() && p.id !in objects && NO_ID < p.id <= uniqueId && p !in Repr
      modifies this`objects, this`userIds, this`state, this`Repr
      ensures Valid() && LiveParty(p)
      ensures state == old(state)[p.id := p.View()] && Repr == old(Repr) + {p}
      ensures objects == old(objects)[p.id := PartyObj(p)] && userIds == old(userIds)[login := p.id]
    {
      StoreParty(p);
      userIds := userIds[login := p.id];
    }

    method DeleteObject(id: Id)
      requires Valid()
      modifies this`objects, this`state, this`cells
      ensures Valid()
      ensures state == old(state) - {id} && cells == old(cells) - {id} && objects == old(objects) - {id}
    {
      objects, state, cells := objects - {id}, state - {id}, cells - {id};
    }
  }
}
