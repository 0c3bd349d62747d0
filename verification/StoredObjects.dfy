/** The objects that are stored as text: their fields in the order in which they are printed and rebuilt. */
module StoredObjects {
  import opened Basics
  import opened JsonTokens
  import opened JsonReader
  import opened JsonRoundTrip
  import opened JsonPrinter

  type Byte = i: int | 0 <= i < 256

  /** The fields that users and groups share. A time is the instant it stands for. */
  datatype PartyData = PartyData(id: string, isActive: bool, name: string, creationTime: int, realmId: string,
                                 aclEntryIds: seq<string>)

  /** The fields that all resources share. */
  datatype ResourceData = ResourceData(id: string, aclEntryIds: seq<string>, name: string, description: string,
                                       parentId: string, creationTime: int)

  datatype Stored =
    | User(party: PartyData, userId: string, defaultRepoId: string, emailAddress: string, emailIsVerified: bool,
           passwordHash: seq<Byte>, groupIds: seq<string>, loginAttempts: seq<string>, eventIds: seq<string>)
    | Group(party: PartyData, description: string, userObjIds: seq<string>)
    | ACLEntry(id: string, resourceId: string, partyId: string, permissionMask: seq<bool>)
    | Realm(resource: ResourceData, adminUserId: string, orgFullName: string, userObjIds: seq<string>,
            groupIds: seq<string>, repoIds: seq<string>, fileDirectory: string)
    | Repo(resource: ResourceData, defaultUserIds: seq<string>, dockerfileIds: seq<string>, dockerImageIds: seq<string>,
           scanConfigIds: seq<string>, flagIds: seq<string>, fileDirectory: string)
    | Dockerfile(resource: ResourceData, filePath: string, execEventIds: seq<string>)
    | DockerImage(resource: ResourceData, versionIds: seq<string>, scanConfigsToUse: seq<string>)
    | ScanConfig(resource: ResourceData, successExpression: string, providerName: string, parameterValueIds: seq<string>,
                 flagId: string, scanEventIds: seq<string>, imagesThatUse: seq<string>)
    | Flag(resource: ResourceData, successImagePath: string, usedByScanConfigIds: seq<string>)
    | IdentityValidationInfo(id: string, userId: string, creationTime: int)

  // ----- Printing -----

  function S(name: string, s: string): Field { Field(name, StringValue(s)) }
  function B(name: string, b: bool): Field { Field(name, BoolValue(b)) }
  function T(name: string, t: int): Field { Field(name, TimeValue(t)) }
  function L(name: string, ids: seq<string>): Field { Field(name, ListOf(Texts(ids))) }

  function TypeName(o: Stored): string {
    match o
    case User(_, _, _, _, _, _, _, _, _) => "User"
    case Group(_, _, _) => "Group"
    case ACLEntry(_, _, _, _) => "ACLEntry"
    case Realm(_, _, _, _, _, _, _) => "Realm"
    case Repo(_, _, _, _, _, _, _) => "Repo"
    case Dockerfile(_, _, _) => "Dockerfile"
    case DockerImage(_, _, _) => "DockerImage"
    case ScanConfig(_, _, _, _, _, _, _) => "ScanConfig"
    case Flag(_, _, _) => "Flag"
    case IdentityValidationInfo(_, _, _) => "IdentityValidationInfo"
  }

  function PartyFields(p: PartyData): (fs: seq<Field>)
    ensures AllFlat(fs) && fs != []
  {
    [S("Id", p.id), B("IsActive", p.isActive), S("Name", p.name), T("CreationTime", p.creationTime),
     S("RealmId", p.realmId), L("ACLEntryIds", p.aclEntryIds)]
  }

  function ResourceFields(r: ResourceData): (fs: seq<Field>)
    ensures AllFlat(fs) && fs != []
  {
    [S("Id", r.id), L("ACLEntryIds", r.aclEntryIds), S("Name", r.name), S("Description", r.description),
     S("ParentId", r.parentId), T("CreationTime", r.creationTime)]
  }

  // The fields of a type after those that all parties or all resources share.

  function UserTail(o: Stored): (fs: seq<Field>)
    requires o.User?
    ensures AllFlat(fs)
  {
    UserSingles(o) + UserLists(o)
  }

  function UserSingles(o: Stored): (fs: seq<Field>)
    requires o.User?
    ensures AllFlat(fs)
  {
    [S("UserId", o.userId), S("DefaultRepoId", o.defaultRepoId), S("EmailAddress", o.emailAddress),
     B("EmailIsVerified", o.emailIsVerified)]
  }

  function UserLists(o: Stored): (fs: seq<Field>)
    requires o.User?
    ensures AllFlat(fs)
  {
    [Field("PasswordHash", ListOf(Numbers(o.passwordHash))), L("GroupIds", o.groupIds),
     L("MostRecentLoginAttempts", o.loginAttempts), L("EventIds", o.eventIds)]
  }

  function GroupTail(o: Stored): (fs: seq<Field>)
    requires o.Group?
    ensures AllFlat(fs)
  {
    [S("Description", o.description), L("UserObjIds", o.userObjIds)]
  }

  function DockerfileTail(o: Stored): (fs: seq<Field>)
    requires o.Dockerfile?
    ensures AllFlat(fs)
  {
    [S("FilePath", o.filePath), L("DockerfileExecEventIds", o.execEventIds)]
  }

  function DockerImageTail(o: Stored): (fs: seq<Field>)
    requires o.DockerImage?
    ensures AllFlat(fs)
  {
    [L("VersionIds", o.versionIds), L("ScanConfigsToUse", o.scanConfigsToUse)]
  }

  function FlagTail(o: Stored): (fs: seq<Field>)
    requires o.Flag?
    ensures AllFlat(fs)
  {
    [S("SuccessImagePath", o.successImagePath), L("UsedByScanConfigIds", o.usedByScanConfigIds)]
  }

  function RealmTail(o: Stored): (fs: seq<Field>)
    requires o.Realm?
    ensures AllFlat(fs)
  {
    [S("AdminUserId", o.adminUserId), S("OrgFullName", o.orgFullName), L("UserObjIds", o.userObjIds),
     L("GroupIds", o.groupIds), L("RepoIds", o.repoIds), S("FileDirectory", o.fileDirectory)]
  }

  function RepoTail(o: Stored): (fs: seq<Field>)
    requires o.Repo?
    ensures AllFlat(fs)
  {
    [L("DefaultUserIds", o.defaultUserIds), L("DockerFieldIds", o.dockerfileIds), L("DockerImageIds", o.dockerImageIds),
     L("ScanConfigIds", o.scanConfigIds), L("FlagIds", o.flagIds), S("FileDirectory", o.fileDirectory)]
  }

  function ScanConfigTail(o: Stored): (fs: seq<Field>)
    requires o.ScanConfig?
    ensures AllFlat(fs)
  {
    [S("SuccessExpression", o.successExpression), S("ProviderName", o.providerName), L("ParameterValueIds", o.parameterValueIds),
     S("FlagId", o.flagId), L("ScanEventIds", o.scanEventIds), L("DockerImageIdsThatUse", o.imagesThatUse)]
  }

  function EntryFields(o: Stored): (fs: seq<Field>)
    requires o.ACLEntry?
    ensures AllFlat(fs) && fs != []
  {
    [S("Id", o.id), S("ResourceId", o.resourceId), S("PartyId", o.partyId), Field("PermissionMask", ListOf(Flags(o.permissionMask)))]
  }

  function InfoFields(o: Stored): (fs: seq<Field>)
    requires o.IdentityValidationInfo?
    ensures AllFlat(fs) && fs != []
  {
    [S("Id", o.id), S("UserId", o.userId), T("CreationTime", o.creationTime)]
  }

  /** The fields of an object in the order in which its printer writes them. */
  function FieldsOf(o: Stored): seq<Field> {
    match o
    case User(p, _, _, _, _, _, _, _, _) => PartyFields(p) + UserTail(o)
    case Group(p, _, _) => PartyFields(p) + GroupTail(o)
    case ACLEntry(_, _, _, _) => EntryFields(o)
    case Realm(r, _, _, _, _, _, _) => ResourceFields(r) + RealmTail(o)
    case Repo(r, _, _, _, _, _, _) => ResourceFields(r) + RepoTail(o)
    case Dockerfile(r, _, _) => ResourceFields(r) + DockerfileTail(o)
    case DockerImage(r, _, _) => ResourceFields(r) + DockerImageTail(o)
    case ScanConfig(r, _, _, _, _, _, _) => ResourceFields(r) + ScanConfigTail(o)
    case Flag(r, _, _) => ResourceFields(r) + FlagTail(o)
    case IdentityValidationInfo(_, _, _) => InfoFields(o)
  }

  lemma FlatBoth(fs: seq<Field>, gs: seq<Field>)
    requires AllFlat(fs) && AllFlat(gs) && fs != []
    ensures AllFlat(fs + gs) && fs + gs != []
  {
  }

  lemma ResourceObjectsAreFlat(o: Stored)
    requires o.Realm? || o.Repo? || o.ScanConfig? || o.Dockerfile? || o.DockerImage? || o.Flag?
    ensures AllFlat(FieldsOf(o)) && FieldsOf(o) != []
  {
    var shared := ResourceFields(o.resource);
    if o.Realm? {
      FlatBoth(shared, RealmTail(o));
    } else if o.Repo? {
      FlatBoth(shared, RepoTail(o));
    } else if o.ScanConfig? {
      FlatBoth(shared, ScanConfigTail(o));
    } else {
      ShortObjectsAreFlat(o);
    }
  }

  lemma ShortObjectsAreFlat(o: Stored)
    requires o.Dockerfile? || o.DockerImage? || o.Flag?
    ensures AllFlat(FieldsOf(o)) && FieldsOf(o) != []
  {
    var shared := ResourceFields(o.resource);
    if o.Dockerfile? {
      FlatBoth(shared, DockerfileTail(o));
    } else if o.DockerImage? {
      FlatBoth(shared, DockerImageTail(o));
    } else {
      FlatBoth(shared, FlagTail(o));
    }
  }

  lemma FieldsAreFlat(o: Stored)
    ensures AllFlat(FieldsOf(o)) && FieldsOf(o) != []
  {
    if o.User? {
      FlatBoth(PartyFields(o.party), UserTail(o));
    } else if o.Group? {
      FlatBoth(PartyFields(o.party), GroupTail(o));
    } else if !o.ACLEntry? && !o.IdentityValidationInfo? {
      ResourceObjectsAreFlat(o);
    }
  }

  /** The name of the type, a colon, and the fields in braces. */
  function AsJson(tt: TimeText, o: Stored): string {
    FieldsAreFlat(o);
    Opening(o) + PrintFields(tt, FieldsOf(o)) + "}"
  }

  function Opening(o: Stored): string { Key(TypeName(o)) + "{" }

  // ----- Rebuilding -----

  const STRINGS := SliceType(StringType)
  const PARTY := [StringType, BoolType, StringType, TimeType, StringType, STRINGS]
  const RESOURCE := [StringType, STRINGS, StringType, StringType, StringType, TimeType]
  const USER_SINGLES := [StringType, StringType, StringType, BoolType]
  const USER_LISTS := [SliceType(ByteType), STRINGS, STRINGS, STRINGS]
  const REALM_TAIL := [StringType, StringType, STRINGS, STRINGS, STRINGS, StringType]
  const REPO_TAIL := [STRINGS, STRINGS, STRINGS, STRINGS, STRINGS, StringType]
  const SCAN_CONFIG_TAIL := [StringType, StringType, STRINGS, StringType, STRINGS, STRINGS]

  /** The types that the Reconstitute method of a type asks for; no type has that method if the list is empty. */
  function Formals(typeName: string): seq<Type> {
    if typeName == "User" then PARTY + (USER_SINGLES + USER_LISTS)
    else if typeName == "Group" then PARTY + [StringType, STRINGS]
    else if typeName == "ACLEntry" then [StringType, StringType, StringType, SliceType(BoolType)]
    else if typeName == "Realm" then RESOURCE + REALM_TAIL
    else if typeName == "Repo" then RESOURCE + REPO_TAIL
    else if typeName == "Dockerfile" then RESOURCE + [StringType, STRINGS]
    else if typeName == "DockerImage" then RESOURCE + [STRINGS, STRINGS]
    else if typeName == "ScanConfig" then RESOURCE + SCAN_CONFIG_TAIL
    else if typeName == "Flag" then RESOURCE + [StringType, STRINGS]
    else if typeName == "IdentityValidationInfo" then [StringType, StringType, TimeType]
    else []
  }

  function Str(v: Value): string { if v.StringValue? then v.s else "" }
  function Truth(v: Value): bool { v.BoolValue? && v.b }
  function Instant(v: Value): int { if v.TimeValue? then v.instant else 0 }
  function Number(v: Value): Byte { if v.IntValue? && 0 <= v.i < 256 then v.i else 0 }
  function Elems(v: Value): seq<Value> { if v.ListValue? then v.elements else [] }
  function Strs(v: Value): seq<string> { seq(|Elems(v)|, k requires 0 <= k < |Elems(v)| => Str(Elems(v)[k])) }
  function Truths(v: Value): seq<bool> { seq(|Elems(v)|, k requires 0 <= k < |Elems(v)| => Truth(Elems(v)[k])) }
  function ByteNumbers(v: Value): seq<Byte> { seq(|Elems(v)|, k requires 0 <= k < |Elems(v)| => Number(Elems(v)[k])) }

  function PartyFrom(a: seq<Value>): PartyData
    requires |a| >= 6
  {
    PartyData(Str(a[0]), Truth(a[1]), Str(a[2]), Instant(a[3]), Str(a[4]), Strs(a[5]))
  }

  function ResourceFrom(a: seq<Value>): ResourceData
    requires |a| >= 6
  {
    ResourceData(Str(a[0]), Strs(a[1]), Str(a[2]), Str(a[3]), Str(a[4]), Instant(a[5]))
  }

  /** The Reconstitute methods: arguments are taken by position, in the order of the constructor's parameters. */
  function Build(typeName: string, a: seq<Value>): Stored
    requires |a| == |Formals(typeName)| > 0
  {
    if typeName == "User" then
      User(PartyFrom(a), Str(a[6]), Str(a[7]), Str(a[8]), Truth(a[9]), ByteNumbers(a[10]), Strs(a[11]), Strs(a[12]), Strs(a[13]))
    else if typeName == "Group" then Group(PartyFrom(a), Str(a[6]), Strs(a[7]))
    else if typeName == "ACLEntry" then ACLEntry(Str(a[0]), Str(a[1]), Str(a[2]), Truths(a[3]))
    else if typeName == "Realm" then
      Realm(ResourceFrom(a), Str(a[6]), Str(a[7]), Strs(a[8]), Strs(a[9]), Strs(a[10]), Str(a[11]))
    else if typeName == "Repo" then
      Repo(ResourceFrom(a), Strs(a[6]), Strs(a[7]), Strs(a[8]), Strs(a[9]), Strs(a[10]), Str(a[11]))
    else if typeName == "Dockerfile" then Dockerfile(ResourceFrom(a), Str(a[6]), Strs(a[7]))
    else if typeName == "DockerImage" then DockerImage(ResourceFrom(a), Strs(a[6]), Strs(a[7]))
    else if typeName == "ScanConfig" then
      ScanConfig(ResourceFrom(a), Str(a[6]), Str(a[7]), Strs(a[8]), Str(a[9]), Strs(a[10]), Strs(a[11]))
    else if typeName == "Flag" then Flag(ResourceFrom(a), Str(a[6]), Strs(a[7]))
    else IdentityValidationInfo(Str(a[0]), Str(a[1]), Instant(a[2]))
  }

  // ----- Fitting the values that were read to the parameters -----

  /** Value.Convert; None is its run-time error. An integer becomes a byte by losing its upper bits, a string as a rune. */
  function ConvertElement(e: Env, v: Value, t: Type): Option<Value> {
    if t == AnyType || TypeOf(v) == t then Some(v)
    else if v.IntValue? && t == ByteType then Some(IntValue(v.i % 256))
    else if v.IntValue? && t == StringType then Some(StringValue(e.runeText(v.i)))
    else None
  }

  predicate Converts(e: Env, vs: seq<Value>, t: Type) {
    forall k :: 0 <= k < |vs| ==> ConvertElement(e, vs[k], t).Some?
  }

  function Converted(e: Env, vs: seq<Value>, t: Type): (r: seq<Value>)
    requires Converts(e, vs, t)
    ensures |r| == |vs| && forall k :: 0 <= k < |vs| ==> Some(r[k]) == ConvertElement(e, vs[k], t)
  {
    seq(|vs|, k requires 0 <= k < |vs| => ConvertElement(e, vs[k], t).value)
  }

  /** One argument: a list is made anew with the element type of the parameter, anything else must have its type. */
  function FitArgument(e: Env, v: MaybeValue, t: Type): MaybeValue {
    match v
    case None => None
    case Some(ListValue(_, vs)) =>
      if t.SliceType? && Converts(e, vs, t.elem) then Some(ListValue(t.elem, Converted(e, vs, t.elem))) else None
    case Some(w) => if TypeOf(w) == t then Some(w) else None
  }

  predicate Fits(e: Env, vs: seq<MaybeValue>, formals: seq<Type>) {
    |vs| == |formals| && forall k :: 0 <= k < |vs| ==> FitArgument(e, vs[k], formals[k]).Some?
  }

  function Fitted(e: Env, vs: seq<MaybeValue>, formals: seq<Type>): (a: seq<Value>)
    requires Fits(e, vs, formals)
    ensures |a| == |vs| && forall k :: 0 <= k < |vs| ==> Some(a[k]) == FitArgument(e, vs[k], formals[k])
  {
    seq(|vs|, k requires 0 <= k < |vs| => FitArgument(e, vs[k], formals[k]).value)
  }

  /** retrieveTypeName: the text between the first two quotes, and what follows the next colon. */
  function RetrieveTypeName(json: string): Option<(string, string)> {
    var i := Index(json, QUOTE);
    NameAndRemainder(if i == |json| then json else json[i + 1..])
  }

  /** The text up to the first quote, and what follows the first colon after it. */
  function NameAndRemainder(s: string): Option<(string, string)> {
    var j := Index(s, QUOTE);
    if j == |s| then None
    else
      var k := Index(s[j..], ':');
      if j + k == |s| then None else Some((s[..j], s[j + k + 1..]))
  }

  /** ReconstituteObject: None is an error return or a run-time error. */
  function Reconstitute(e: Env, json: string): Option<(string, Stored)> {
    match RetrieveTypeName(json)
    case None => None
    case Some((typeName, remainder)) =>
      if Formals(typeName) == [] then None
      else
        match ParseObject(e, remainder)
        case Bad => None
        case Good(None, _) => None
        case Good(Some(vs), _) =>
          if Fits(e, vs, Formals(typeName)) then Some((typeName, Build(typeName, Fitted(e, vs, Formals(typeName))))) else None
  }

  // ----- Rebuilding undoes printing -----

  /** No text in the object needs escaping. */
  predicate PlainValue(v: Value) {
    if v.ListValue? then forall k :: 0 <= k < |v.elements| ==> v.elements[k].StringValue? ==> Plain(v.elements[k].s)
    else v.StringValue? ==> Plain(v.s)
  }

  predicate PlainObject(o: Stored) {
    forall k :: 0 <= k < |FieldsOf(o)| ==> PlainValue(FieldsOf(o)[k].value)
  }

  /** What a list of the printers becomes when it is read and fitted to a parameter. */
  lemma ListFits(e: Env, l: Elements, t: Type)
    requires || t == SliceType(ElementType(l))
             || (l.Numbers? && t == SliceType(ByteType) && forall k :: 0 <= k < |l.bytes| ==> 0 <= l.bytes[k] < 256)
    ensures var a := FitArgument(e, Some(ListOf(l)), t);
      && a.Some?
      && (l.Texts? ==> Strs(a.value) == l.ids) && (l.Flags? ==> Truths(a.value) == l.bits)
      && (l.Numbers? && t == SliceType(ByteType) ==> ByteNumbers(a.value) == l.bytes)
  {
    forall k | 0 <= k < Count(l) ensures ConvertElement(e, ValuesIn(l)[k], t.elem).Some? { }
  }

  /** The arguments are what the fields become. */
  ghost predicate Become(e: Env, fs: seq<Field>, formals: seq<Type>, a: seq<Value>) {
    && |fs| == |formals| == |a|
    && forall k :: 0 <= k < |fs| ==> Some(a[k]) == FitArgument(e, Some(fs[k].value), formals[k])
  }

  /** The arguments are what the fields of the object become, and the constructor makes the object of them. */
  ghost predicate Rebuilds(e: Env, o: Stored, name: string, a: seq<Value>) {
    Become(e, FieldsOf(o), Formals(name), a) && |a| > 0 && Build(name, a) == o
  }

  lemma {:induction false} BecomeFitted(e: Env, fs: seq<Field>, formals: seq<Type>, a: seq<Value>)
    requires Become(e, fs, formals, a)
    ensures Fits(e, ValuesOf(fs), formals) && Fitted(e, ValuesOf(fs), formals) == a
  {
    forall k | 0 <= k < |fs| ensures FitArgument(e, ValuesOf(fs)[k], formals[k]) == Some(a[k]) { }
  }

  lemma BecomeBoth(e: Env, fs: seq<Field>, formals: seq<Type>, a: seq<Value>, gs: seq<Field>, more: seq<Type>, b: seq<Value>)
    requires Become(e, fs, formals, a) && Become(e, gs, more, b)
    ensures Become(e, fs + gs, formals + more, a + b)
  {
  }

  /** The shared fields of an object and the others, taken together. */
  lemma BothRebuild(e: Env, o: Stored, name: string, fs: seq<Field>, formals: seq<Type>, a: seq<Value>,
                    gs: seq<Field>, more: seq<Type>, b: seq<Value>)
    requires Become(e, fs, formals, a) && Become(e, gs, more, b)
    requires FieldsOf(o) == fs + gs && Formals(name) == formals + more
    requires |a + b| > 0 && Build(name, a + b) == o
    ensures Rebuilds(e, o, name, a + b)
  {
    BecomeBoth(e, fs, formals, a, gs, more, b);
  }

  /** A list of texts as an argument. */
  lemma TextsFit(e: Env, name: string, ids: seq<string>) returns (v: Value)
    ensures FitArgument(e, Some(L(name, ids).value), STRINGS) == Some(v) && Strs(v) == ids
  {
    ListFits(e, Texts(ids), STRINGS);
    v := FitArgument(e, Some(ListOf(Texts(ids))), STRINGS).value;
  }

  lemma PartyFits(e: Env, p: PartyData) returns (a: seq<Value>)
    ensures Become(e, PartyFields(p), PARTY, a) && PartyFrom(a) == p
  {
    var ids := TextsFit(e, "ACLEntryIds", p.aclEntryIds);
    a := [StringValue(p.id), BoolValue(p.isActive), StringValue(p.name), TimeValue(p.creationTime), StringValue(p.realmId), ids];
  }

  lemma ResourceFits(e: Env, r: ResourceData) returns (a: seq<Value>)
    ensures Become(e, ResourceFields(r), RESOURCE, a) && ResourceFrom(a) == r
  {
    var ids := TextsFit(e, "ACLEntryIds", r.aclEntryIds);
    a := [StringValue(r.id), ids, StringValue(r.name), StringValue(r.description), StringValue(r.parentId), TimeValue(r.creationTime)];
  }

  /** A list of bytes as an argument. */
  lemma BytesFit(e: Env, bytes: seq<Byte>) returns (v: Value)
    ensures FitArgument(e, Some(ListOf(Numbers(bytes))), SliceType(ByteType)) == Some(v) && ByteNumbers(v) == bytes
  {
    ListFits(e, Numbers(bytes), SliceType(ByteType));
    v := FitArgument(e, Some(ListOf(Numbers(bytes))), SliceType(ByteType)).value;
  }

  lemma UserListsFit(e: Env, o: Stored) returns (a: seq<Value>)
    requires o.User?
    ensures Become(e, UserLists(o), USER_LISTS, a)
    ensures ByteNumbers(a[0]) == o.passwordHash && Strs(a[1]) == o.groupIds
    ensures Strs(a[2]) == o.loginAttempts && Strs(a[3]) == o.eventIds
  {
    var hash := BytesFit(e, o.passwordHash);
    var groups := TextsFit(e, "GroupIds", o.groupIds);
    var attempts := TextsFit(e, "MostRecentLoginAttempts", o.loginAttempts);
    var events := TextsFit(e, "EventIds", o.eventIds);
    a := [hash, groups, attempts, events];
  }

  lemma UserTailFits(e: Env, o: Stored) returns (a: seq<Value>)
    requires o.User?
    ensures Become(e, UserTail(o), USER_SINGLES + USER_LISTS, a)
    ensures Str(a[0]) == o.userId && Str(a[1]) == o.defaultRepoId && Str(a[2]) == o.emailAddress
    ensures Truth(a[3]) == o.emailIsVerified && ByteNumbers(a[4]) == o.passwordHash && Strs(a[5]) == o.groupIds
    ensures Strs(a[6]) == o.loginAttempts && Strs(a[7]) == o.eventIds
  {
    var singles := [StringValue(o.userId), StringValue(o.defaultRepoId), StringValue(o.emailAddress), BoolValue(o.emailIsVerified)];
    var lists := UserListsFit(e, o);
    BecomeBoth(e, UserSingles(o), USER_SINGLES, singles, UserLists(o), USER_LISTS, lists);
    a := singles + lists;
  }

  lemma UserFits(e: Env, o: Stored) returns (a: seq<Value>)
    requires o.User?
    ensures Rebuilds(e, o, "User", a)
  {
    var party := PartyFits(e, o.party);
    var tail := UserTailFits(e, o);
    a := party + tail;
    UserParts(o);
    BuildUser(a, party, tail);
    BothRebuild(e, o, "User", PartyFields(o.party), PARTY, party, UserTail(o), USER_SINGLES + USER_LISTS, tail);
  }

  lemma UserParts(o: Stored)
    requires o.User?
    ensures FieldsOf(o) == PartyFields(o.party) + UserTail(o) && Formals("User") == PARTY + (USER_SINGLES + USER_LISTS)
  {
  }

  lemma BuildUser(a: seq<Value>, party: seq<Value>, tail: seq<Value>)
    requires |party| == 6 && |tail| == 8 && a == party + tail
    ensures Build("User", a) == User(PartyFrom(party), Str(tail[0]), Str(tail[1]), Str(tail[2]), Truth(tail[3]),
                                     ByteNumbers(tail[4]), Strs(tail[5]), Strs(tail[6]), Strs(tail[7]))
  {
  }

  lemma GroupTailFits(e: Env, o: Stored) returns (a: seq<Value>)
    requires o.Group?
    ensures Become(e, GroupTail(o), [StringType, STRINGS], a) && Str(a[0]) == o.description && Strs(a[1]) == o.userObjIds
  {
    var users := TextsFit(e, "UserObjIds", o.userObjIds);
    a := [StringValue(o.description), users];
  }

  lemma GroupFits(e: Env, o: Stored) returns (a: seq<Value>)
    requires o.Group?
    ensures Rebuilds(e, o, "Group", a)
  {
    var party := PartyFits(e, o.party);
    var tail := GroupTailFits(e, o);
    a := party + tail;
    GroupParts(o);
    BuildGroup(a, party, tail);
    BothRebuild(e, o, "Group", PartyFields(o.party), PARTY, party, GroupTail(o), [StringType, STRINGS], tail);
  }

  lemma GroupParts(o: Stored)
    requires o.Group?
    ensures FieldsOf(o) == PartyFields(o.party) + GroupTail(o) && Formals("Group") == PARTY + [StringType, STRINGS]
  {
  }

  lemma BuildGroup(a: seq<Value>, party: seq<Value>, tail: seq<Value>)
    requires |party| == 6 && |tail| == 2 && a == party + tail
    ensures Build("Group", a) == Group(PartyFrom(party), Str(tail[0]), Strs(tail[1]))
  {
  }

  lemma EntryFits(e: Env, o: Stored) returns (a: seq<Value>)
    requires o.ACLEntry?
    ensures Rebuilds(e, o, "ACLEntry", a)
  {
    ListFits(e, Flags(o.permissionMask), SliceType(BoolType));
    var mask := FitArgument(e, Some(ListOf(Flags(o.permissionMask))), SliceType(BoolType)).value;
    a := [StringValue(o.id), StringValue(o.resourceId), StringValue(o.partyId), mask];
  }

  lemma RealmTailFits(e: Env, o: Stored) returns (a: seq<Value>)
    requires o.Realm?
    ensures Become(e, RealmTail(o), REALM_TAIL, a)
    ensures Str(a[0]) == o.adminUserId && Str(a[1]) == o.orgFullName && Strs(a[2]) == o.userObjIds
    ensures Strs(a[3]) == o.groupIds && Strs(a[4]) == o.repoIds && Str(a[5]) == o.fileDirectory
  {
    var users := TextsFit(e, "UserObjIds", o.userObjIds);
    var groups := TextsFit(e, "GroupIds", o.groupIds);
    var repos := TextsFit(e, "RepoIds", o.repoIds);
    a := [StringValue(o.adminUserId), StringValue(o.orgFullName), users, groups, repos, StringValue(o.fileDirectory)];
  }

  lemma RealmFits(e: Env, o: Stored) returns (a: seq<Value>)
    requires o.Realm?
    ensures Rebuilds(e, o, "Realm", a)
  {
    var resource := ResourceFits(e, o.resource);
    var tail := RealmTailFits(e, o);
    a := resource + tail;
    RealmParts(o);
    BuildRealm(a, resource, tail);
    BothRebuild(e, o, "Realm", ResourceFields(o.resource), RESOURCE, resource, RealmTail(o), REALM_TAIL, tail);
  }

  lemma RealmParts(o: Stored)
    requires o.Realm?
    ensures FieldsOf(o) == ResourceFields(o.resource) + RealmTail(o) && Formals("Realm") == RESOURCE + REALM_TAIL
  {
  }

  lemma BuildRealm(a: seq<Value>, resource: seq<Value>, tail: seq<Value>)
    requires |resource| == 6 && |tail| == 6 && a == resource + tail
    ensures Build("Realm", a) == Realm(ResourceFrom(resource), Str(tail[0]), Str(tail[1]), Strs(tail[2]), Strs(tail[3]),
                                       Strs(tail[4]), Str(tail[5]))
  {
  }

  lemma RepoTailFits(e: Env, o: Stored) returns (a: seq<Value>)
    requires o.Repo?
    ensures Become(e, RepoTail(o), REPO_TAIL, a)
    ensures Strs(a[0]) == o.defaultUserIds && Strs(a[1]) == o.dockerfileIds && Strs(a[2]) == o.dockerImageIds
    ensures Strs(a[3]) == o.scanConfigIds && Strs(a[4]) == o.flagIds && Str(a[5]) == o.fileDirectory
  {
    var users := TextsFit(e, "DefaultUserIds", o.defaultUserIds);
    var dockerfiles := TextsFit(e, "DockerFieldIds", o.dockerfileIds);
    var images := TextsFit(e, "DockerImageIds", o.dockerImageIds);
    var configs := TextsFit(e, "ScanConfigIds", o.scanConfigIds);
    var flags := TextsFit(e, "FlagIds", o.flagIds);
    a := [users, dockerfiles, images, configs, flags, StringValue(o.fileDirectory)];
  }

  lemma RepoFits(e: Env, o: Stored) returns (a: seq<Value>)
    requires o.Repo?
    ensures Rebuilds(e, o, "Repo", a)
  {
    var resource := ResourceFits(e, o.resource);
    var tail := RepoTailFits(e, o);
    a := resource + tail;
    RepoParts(o);
    BuildRepo(a, resource, tail);
    BothRebuild(e, o, "Repo", ResourceFields(o.resource), RESOURCE, resource, RepoTail(o), REPO_TAIL, tail);
  }

  lemma RepoParts(o: Stored)
    requires o.Repo?
    ensures FieldsOf(o) == ResourceFields(o.resource) + RepoTail(o) && Formals("Repo") == RESOURCE + REPO_TAIL
  {
  }

  lemma BuildRepo(a: seq<Value>, resource: seq<Value>, tail: seq<Value>)
    requires |resource| == 6 && |tail| == 6 && a == resource + tail
    ensures Build("Repo", a) == Repo(ResourceFrom(resource), Strs(tail[0]), Strs(tail[1]), Strs(tail[2]), Strs(tail[3]),
                                     Strs(tail[4]), Str(tail[5]))
  {
  }

  lemma DockerfileTailFits(e: Env, o: Stored) returns (a: seq<Value>)
    requires o.Dockerfile?
    ensures Become(e, DockerfileTail(o), [StringType, STRINGS], a) && Str(a[0]) == o.filePath && Strs(a[1]) == o.execEventIds
  {
    var events := TextsFit(e, "DockerfileExecEventIds", o.execEventIds);
    a := [StringValue(o.filePath), events];
  }

  lemma DockerfileFits(e: Env, o: Stored) returns (a: seq<Value>)
    requires o.Dockerfile?
    ensures Rebuilds(e, o, "Dockerfile", a)
  {
    var resource := ResourceFits(e, o.resource);
    var tail := DockerfileTailFits(e, o);
    a := resource + tail;
    DockerfileParts(o);
    BuildDockerfile(a, resource, tail);
    BothRebuild(e, o, "Dockerfile", ResourceFields(o.resource), RESOURCE, resource, DockerfileTail(o), [StringType, STRINGS], tail);
  }

  lemma DockerfileParts(o: Stored)
    requires o.Dockerfile?
    ensures FieldsOf(o) == ResourceFields(o.resource) + DockerfileTail(o)
    ensures Formals("Dockerfile") == RESOURCE + [StringType, STRINGS]
  {
  }

  lemma BuildDockerfile(a: seq<Value>, resource: seq<Value>, tail: seq<Value>)
    requires |resource| == 6 && |tail| == 2 && a == resource + tail
    ensures Build("Dockerfile", a) == Dockerfile(ResourceFrom(resource), Str(tail[0]), Strs(tail[1]))
  {
  }

  lemma DockerImageTailFits(e: Env, o: Stored) returns (a: seq<Value>)
    requires o.DockerImage?
    ensures Become(e, DockerImageTail(o), [STRINGS, STRINGS], a) && Strs(a[0]) == o.versionIds && Strs(a[1]) == o.scanConfigsToUse
  {
    var versions := TextsFit(e, "VersionIds", o.versionIds);
    var configs := TextsFit(e, "ScanConfigsToUse", o.scanConfigsToUse);
    a := [versions, configs];
  }

  lemma DockerImageFits(e: Env, o: Stored) returns (a: seq<Value>)
    requires o.DockerImage?
    ensures Rebuilds(e, o, "DockerImage", a)
  {
    var resource := ResourceFits(e, o.resource);
    var tail := DockerImageTailFits(e, o);
    a := resource + tail;
    DockerImageParts(o);
    BuildDockerImage(a, resource, tail);
    BothRebuild(e, o, "DockerImage", ResourceFields(o.resource), RESOURCE, resource, DockerImageTail(o), [STRINGS, STRINGS], tail);
  }

  lemma DockerImageParts(o: Stored)
    requires o.DockerImage?
    ensures FieldsOf(o) == ResourceFields(o.resource) + DockerImageTail(o)
    ensures Formals("DockerImage") == RESOURCE + [STRINGS, STRINGS]
  {
  }

  lemma BuildDockerImage(a: seq<Value>, resource: seq<Value>, tail: seq<Value>)
    requires |resource| == 6 && |tail| == 2 && a == resource + tail
    ensures Build("DockerImage", a) == DockerImage(ResourceFrom(resource), Strs(tail[0]), Strs(tail[1]))
  {
  }

  lemma ScanConfigTailFits(e: Env, o: Stored) returns (a: seq<Value>)
    requires o.ScanConfig?
    ensures Become(e, ScanConfigTail(o), SCAN_CONFIG_TAIL, a)
    ensures Str(a[0]) == o.successExpression && Str(a[1]) == o.providerName && Strs(a[2]) == o.parameterValueIds
    ensures Str(a[3]) == o.flagId && Strs(a[4]) == o.scanEventIds && Strs(a[5]) == o.imagesThatUse
  {
    var parameters := TextsFit(e, "ParameterValueIds", o.parameterValueIds);
    var events := TextsFit(e, "ScanEventIds", o.scanEventIds);
    var images := TextsFit(e, "DockerImageIdsThatUse", o.imagesThatUse);
    a := [StringValue(o.successExpression), StringValue(o.providerName), parameters, StringValue(o.flagId), events, images];
  }

  lemma ScanConfigFits(e: Env, o: Stored) returns (a: seq<Value>)
    requires o.ScanConfig?
    ensures Rebuilds(e, o, "ScanConfig", a)
  {
    var resource := ResourceFits(e, o.resource);
    var tail := ScanConfigTailFits(e, o);
    a := resource + tail;
    ScanConfigParts(o);
    BuildScanConfig(a, resource, tail);
    BothRebuild(e, o, "ScanConfig", ResourceFields(o.resource), RESOURCE, resource, ScanConfigTail(o), SCAN_CONFIG_TAIL, tail);
  }

  lemma ScanConfigParts(o: Stored)
    requires o.ScanConfig?
    ensures FieldsOf(o) == ResourceFields(o.resource) + ScanConfigTail(o) && Formals("ScanConfig") == RESOURCE + SCAN_CONFIG_TAIL
  {
  }

  lemma BuildScanConfig(a: seq<Value>, resource: seq<Value>, tail: seq<Value>)
    requires |resource| == 6 && |tail| == 6 && a == resource + tail
    ensures Build("ScanConfig", a) == ScanConfig(ResourceFrom(resource), Str(tail[0]), Str(tail[1]), Strs(tail[2]), Str(tail[3]),
                                                 Strs(tail[4]), Strs(tail[5]))
  {
  }

  lemma FlagTailFits(e: Env, o: Stored) returns (a: seq<Value>)
    requires o.Flag?
    ensures Become(e, FlagTail(o), [StringType, STRINGS], a) && Str(a[0]) == o.successImagePath && Strs(a[1]) == o.usedByScanConfigIds
  {
    var configs := TextsFit(e, "UsedByScanConfigIds", o.usedByScanConfigIds);
    a := [StringValue(o.successImagePath), configs];
  }

  lemma FlagFits(e: Env, o: Stored) returns (a: seq<Value>)
    requires o.Flag?
    ensures Rebuilds(e, o, "Flag", a)
  {
    var resource := ResourceFits(e, o.resource);
    var tail := FlagTailFits(e, o);
    a := resource + tail;
    FlagParts(o);
    BuildFlag(a, resource, tail);
    BothRebuild(e, o, "Flag", ResourceFields(o.resource), RESOURCE, resource, FlagTail(o), [StringType, STRINGS], tail);
  }

  lemma FlagParts(o: Stored)
    requires o.Flag?
    ensures FieldsOf(o) == ResourceFields(o.resource) + FlagTail(o) && Formals("Flag") == RESOURCE + [StringType, STRINGS]
  {
  }

  lemma BuildFlag(a: seq<Value>, resource: seq<Value>, tail: seq<Value>)
    requires |resource| == 6 && |tail| == 2 && a == resource + tail
    ensures Build("Flag", a) == Flag(ResourceFrom(resource), Str(tail[0]), Strs(tail[1]))
  {
  }

  lemma InfoFits(e: Env, o: Stored) returns (a: seq<Value>)
    requires o.IdentityValidationInfo?
    ensures Rebuilds(e, o, "IdentityValidationInfo", a)
  {
    a := [StringValue(o.id), StringValue(o.userId), TimeValue(o.creationTime)];
  }

  lemma ResourceObjectFits(e: Env, o: Stored) returns (a: seq<Value>)
    requires o.Realm? || o.Repo? || o.Dockerfile? || o.DockerImage? || o.ScanConfig? || o.Flag?
    ensures Rebuilds(e, o, TypeName(o), a)
  {
    if o.Realm? {
      a := RealmFits(e, o);
    } else if o.Repo? {
      a := RepoFits(e, o);
    } else if o.Dockerfile? {
      a := DockerfileFits(e, o);
    } else if o.DockerImage? {
      a := DockerImageFits(e, o);
    } else if o.ScanConfig? {
      a := ScanConfigFits(e, o);
    } else {
      a := FlagFits(e, o);
    }
  }

  /** Fitted to the parameters of its own type, every object is rebuilt as it was. */
  lemma ObjectFits(e: Env, o: Stored) returns (a: seq<Value>)
    ensures Rebuilds(e, o, TypeName(o), a)
  {
    if o.User? {
      a := UserFits(e, o);
    } else if o.Group? {
      a := GroupFits(e, o);
    } else if o.ACLEntry? {
      a := EntryFits(e, o);
    } else if o.IdentityValidationInfo? {
      a := InfoFits(e, o);
    } else {
      a := ResourceObjectFits(e, o);
    }
  }
}
