/** The text of stored objects, spelled out: which names, in which order, and how each value is written. */
module StoredText {
  import opened Decimal
  import opened JsonReader
  import opened JsonRoundTrip
  import opened JsonPrinter
  import opened StoredObjects

  // ----- The text, without the printers -----

  /** Texts with a comma and a space between them. */
  function Joined(parts: seq<string>): string {
    if parts == [] then ""
    else if |parts| == 1 then parts[0]
    else parts[0] + ", " + Joined(parts[1..])
  }

  function InQuotes(s: string): string { "\"" + s + "\"" }

  /** A name in quotes, a colon, a space, and the value. */
  function Named(name: string, value: string): string { InQuotes(name) + ": " + value }

  function TextField(name: string, s: string): string { Named(name, InQuotes(s)) }
  function BoolField(name: string, b: bool): string { Named(name, if b then "true" else "false") }
  function TimeField(tt: TimeText, name: string, t: int): string { Named(name, "time " + InQuotes(tt(t))) }

  /** A list in brackets. */
  function InBrackets(parts: seq<string>): string { "[" + Joined(parts) + "]" }

  function IdsField(name: string, ids: seq<string>): string {
    Named(name, InBrackets(seq(|ids|, k requires 0 <= k < |ids| => InQuotes(ids[k]))))
  }

  function BytesField(name: string, bytes: seq<Byte>): string {
    Named(name, InBrackets(seq(|bytes|, k requires 0 <= k < |bytes| => Text(bytes[k]))))
  }

  function BitsField(name: string, bits: seq<bool>): string {
    Named(name, InBrackets(seq(|bits|, k requires 0 <= k < |bits| => if bits[k] then "true" else "false")))
  }

  /** An object: the name of its type, and its fields in braces. */
  function ObjectText(typeName: string, fields: seq<string>): string { Named(typeName, "{" + Joined(fields) + "}") }

  function PartyText(tt: TimeText, p: PartyData): seq<string> {
    [TextField("Id", p.id), BoolField("IsActive", p.isActive), TextField("Name", p.name),
     TimeField(tt, "CreationTime", p.creationTime), TextField("RealmId", p.realmId), IdsField("ACLEntryIds", p.aclEntryIds)]
  }

  function ResourceText(tt: TimeText, r: ResourceData): seq<string> {
    [TextField("Id", r.id), IdsField("ACLEntryIds", r.aclEntryIds), TextField("Name", r.name),
     TextField("Description", r.description), TextField("ParentId", r.parentId),
     TimeField(tt, "CreationTime", r.creationTime)]
  }

  // The fields of a type behind those that all parties or all resources share.

  function UserText(o: Stored): seq<string>
    requires o.User?
  {
    [TextField("UserId", o.userId), TextField("DefaultRepoId", o.defaultRepoId), TextField("EmailAddress", o.emailAddress),
     BoolField("EmailIsVerified", o.emailIsVerified)]
    + [BytesField("PasswordHash", o.passwordHash), IdsField("GroupIds", o.groupIds),
       IdsField("MostRecentLoginAttempts", o.loginAttempts), IdsField("EventIds", o.eventIds)]
  }

  function GroupText(o: Stored): seq<string>
    requires o.Group?
  {
    [TextField("Description", o.description), IdsField("UserObjIds", o.userObjIds)]
  }

  function RealmText(o: Stored): seq<string>
    requires o.Realm?
  {
    [TextField("AdminUserId", o.adminUserId), TextField("OrgFullName", o.orgFullName),
     IdsField("UserObjIds", o.userObjIds), IdsField("GroupIds", o.groupIds), IdsField("RepoIds", o.repoIds),
     TextField("FileDirectory", o.fileDirectory)]
  }

  function RepoText(o: Stored): seq<string>
    requires o.Repo?
  {
    [IdsField("DefaultUserIds", o.defaultUserIds), IdsField("DockerFieldIds", o.dockerfileIds),
     IdsField("DockerImageIds", o.dockerImageIds), IdsField("ScanConfigIds", o.scanConfigIds),
     IdsField("FlagIds", o.flagIds), TextField("FileDirectory", o.fileDirectory)]
  }

  function DockerfileText(o: Stored): seq<string>
    requires o.Dockerfile?
  {
    [TextField("FilePath", o.filePath), IdsField("DockerfileExecEventIds", o.execEventIds)]
  }

  function DockerImageText(o: Stored): seq<string>
    requires o.DockerImage?
  {
    [IdsField("VersionIds", o.versionIds), IdsField("ScanConfigsToUse", o.scanConfigsToUse)]
  }

  function ScanConfigText(o: Stored): seq<string>
    requires o.ScanConfig?
  {
    [TextField("SuccessExpression", o.successExpression), TextField("ProviderName", o.providerName),
     IdsField("ParameterValueIds", o.parameterValueIds), TextField("FlagId", o.flagId),
     IdsField("ScanEventIds", o.scanEventIds), IdsField("DockerImageIdsThatUse", o.imagesThatUse)]
  }

  function FlagText(o: Stored): seq<string>
    requires o.Flag?
  {
    [TextField("SuccessImagePath", o.successImagePath), IdsField("UsedByScanConfigIds", o.usedByScanConfigIds)]
  }

  /** The text of an object of each type. */
  function TextOf(tt: TimeText, o: Stored): string {
    if o.User? then ObjectText("User", PartyText(tt, o.party) + UserText(o))
    else if o.Group? then ObjectText("Group", PartyText(tt, o.party) + GroupText(o))
    else if o.ACLEntry? then
      ObjectText("ACLEntry", [TextField("Id", o.id), TextField("ResourceId", o.resourceId), TextField("PartyId", o.partyId),
                              BitsField("PermissionMask", o.permissionMask)])
    else if o.Realm? then ObjectText("Realm", ResourceText(tt, o.resource) + RealmText(o))
    else if o.Repo? then ObjectText("Repo", ResourceText(tt, o.resource) + RepoText(o))
    else if o.Dockerfile? then ObjectText("Dockerfile", ResourceText(tt, o.resource) + DockerfileText(o))
    else if o.DockerImage? then ObjectText("DockerImage", ResourceText(tt, o.resource) + DockerImageText(o))
    else if o.ScanConfig? then ObjectText("ScanConfig", ResourceText(tt, o.resource) + ScanConfigText(o))
    else if o.Flag? then ObjectText("Flag", ResourceText(tt, o.resource) + FlagText(o))
    else ObjectText("IdentityValidationInfo", [TextField("Id", o.id), TextField("UserId", o.userId),
                                               TimeField(tt, "CreationTime", o.creationTime)])
  }

  // ----- The printers write this text -----

  lemma MoreStarts(tt: TimeText, fs: seq<Field>)
    requires AllFlat(fs) && fs != []
    ensures PrintMoreFields(tt, fs) == ", " + PrintFields(tt, fs)
  {
    Assoc(", ", PrintField(tt, fs[0]), PrintMoreFields(tt, fs[1..]));
  }

  lemma Assoc(a: string, b: string, c: string)
    ensures a + b + c == a + (b + c)
  {
  }

  lemma NothingMore(a: string)
    ensures a + "" == a
  {
  }

  lemma {:induction false} FieldsAreJoined(tt: TimeText, fs: seq<Field>)
    requires AllFlat(fs) && fs != []
    ensures PrintFields(tt, fs) == Joined(FieldTexts(tt, fs))
  {
    var parts := FieldTexts(tt, fs);
    if |fs| > 1 {
      FieldsAreJoined(tt, fs[1..]);
      assert parts[1..] == FieldTexts(tt, fs[1..]);
      MoreStarts(tt, fs[1..]);
      JoinedMore(parts);
    } else {
      NothingMore(parts[0]);
    }
  }

  lemma JoinedMore(parts: seq<string>)
    requires |parts| > 1
    ensures Joined(parts) == parts[0] + (", " + Joined(parts[1..]))
  {
    Assoc(parts[0], ", ", Joined(parts[1..]));
  }

  function FieldTexts(tt: TimeText, fs: seq<Field>): (parts: seq<string>)
    requires AllFlat(fs)
    ensures |parts| == |fs|
  {
    seq(|fs|, k requires 0 <= k < |fs| => PrintField(tt, fs[k]))
  }

  function ElementTexts(tt: TimeText, vs: seq<Value>): (parts: seq<string>)
    requires AllSimple(vs)
    ensures |parts| == |vs|
  {
    seq(|vs|, k requires 0 <= k < |vs| => PrintSimple(tt, vs[k]))
  }

  lemma MoreElementsStart(tt: TimeText, vs: seq<Value>)
    requires AllSimple(vs) && vs != []
    ensures PrintMore(tt, vs) == ", " + PrintElements(tt, vs)
  {
    Assoc(", ", PrintSimple(tt, vs[0]), PrintMore(tt, vs[1..]));
  }

  lemma {:induction false} ElementsAreJoined(tt: TimeText, vs: seq<Value>)
    requires AllSimple(vs)
    ensures PrintElements(tt, vs) == Joined(ElementTexts(tt, vs))
  {
    var parts := ElementTexts(tt, vs);
    if |vs| > 1 {
      ElementsAreJoined(tt, vs[1..]);
      assert parts[1..] == ElementTexts(tt, vs[1..]);
      MoreElementsStart(tt, vs[1..]);
      JoinedMore(parts);
    } else if |vs| == 1 {
      NothingMore(parts[0]);
    }
  }

  lemma TextPrinted(tt: TimeText, name: string, s: string)
    ensures PrintField(tt, S(name, s)) == TextField(name, s)
  {
  }

  lemma BoolPrinted(tt: TimeText, name: string, b: bool)
    ensures PrintField(tt, B(name, b)) == BoolField(name, b)
  {
  }

  lemma TimePrinted(tt: TimeText, name: string, t: int)
    ensures PrintField(tt, T(name, t)) == TimeField(tt, name, t)
  {
  }

  lemma ListPrinted(tt: TimeText, name: string, l: Elements, parts: seq<string>)
    requires |parts| == Count(l)
    requires forall k :: 0 <= k < |parts| ==> parts[k] == PrintSimple(tt, ElementAt(l, k))
    ensures PrintField(tt, Field(name, ListOf(l))) == Named(name, InBrackets(parts))
  {
    ElementsAreJoined(tt, ValuesIn(l));
    assert ElementTexts(tt, ValuesIn(l)) == parts;
  }

  lemma IdsPrinted(tt: TimeText, name: string, ids: seq<string>)
    ensures PrintField(tt, L(name, ids)) == IdsField(name, ids)
  {
    ListPrinted(tt, name, Texts(ids), seq(|ids|, k requires 0 <= k < |ids| => InQuotes(ids[k])));
  }

  lemma BytesPrinted(tt: TimeText, name: string, bytes: seq<Byte>)
    ensures PrintField(tt, Field(name, ListOf(Numbers(bytes)))) == BytesField(name, bytes)
  {
    ListPrinted(tt, name, Numbers(bytes), seq(|bytes|, k requires 0 <= k < |bytes| => Text(bytes[k])));
  }

  lemma BitsPrinted(tt: TimeText, name: string, bits: seq<bool>)
    ensures PrintField(tt, Field(name, ListOf(Flags(bits)))) == BitsField(name, bits)
  {
    ListPrinted(tt, name, Flags(bits), seq(|bits|, k requires 0 <= k < |bits| => if bits[k] then "true" else "false"));
  }

  lemma FieldTextsBoth(tt: TimeText, fs: seq<Field>, gs: seq<Field>)
    requires AllFlat(fs) && AllFlat(gs)
    ensures AllFlat(fs + gs) && FieldTexts(tt, fs + gs) == FieldTexts(tt, fs) + FieldTexts(tt, gs)
  {
  }

  lemma PartyPrinted(tt: TimeText, p: PartyData)
    ensures FieldTexts(tt, PartyFields(p)) == PartyText(tt, p)
  {
    TextPrinted(tt, "Id", p.id);
    BoolPrinted(tt, "IsActive", p.isActive);
    TextPrinted(tt, "Name", p.name);
    TimePrinted(tt, "CreationTime", p.creationTime);
    TextPrinted(tt, "RealmId", p.realmId);
    IdsPrinted(tt, "ACLEntryIds", p.aclEntryIds);
  }

  lemma ResourcePrinted(tt: TimeText, r: ResourceData)
    ensures FieldTexts(tt, ResourceFields(r)) == ResourceText(tt, r)
  {
    TextPrinted(tt, "Id", r.id);
    IdsPrinted(tt, "ACLEntryIds", r.aclEntryIds);
    TextPrinted(tt, "Name", r.name);
    TextPrinted(tt, "Description", r.description);
    TextPrinted(tt, "ParentId", r.parentId);
    TimePrinted(tt, "CreationTime", r.creationTime);
  }

  /** A list of fields is printed as a list of texts. */
  ghost predicate PrintedAs(tt: TimeText, fs: seq<Field>, parts: seq<string>) {
    AllFlat(fs) && fs != [] && FieldTexts(tt, fs) == parts
  }

  lemma PrintedBoth(tt: TimeText, fs: seq<Field>, gs: seq<Field>, a: seq<string>, b: seq<string>)
    requires PrintedAs(tt, fs, a) && PrintedAs(tt, gs, b)
    ensures PrintedAs(tt, fs + gs, a + b)
  {
    FieldTextsBoth(tt, fs, gs);
  }

  lemma SixPrinted(tt: TimeText, a: Field, b: Field, c: Field, d: Field, e: Field, f: Field)
    requires AllFlat([a, b, c, d, e, f]) && Flat(a) && Flat(b) && Flat(c) && Flat(d) && Flat(e) && Flat(f)
    ensures PrintedAs(tt, [a, b, c, d, e, f], [PrintField(tt, a), PrintField(tt, b), PrintField(tt, c), PrintField(tt, d),
                                               PrintField(tt, e), PrintField(tt, f)])
  {
  }

  lemma FourPrinted(tt: TimeText, a: Field, b: Field, c: Field, d: Field)
    requires Flat(a) && Flat(b) && Flat(c) && Flat(d)
    ensures PrintedAs(tt, [a, b, c, d], [PrintField(tt, a), PrintField(tt, b), PrintField(tt, c), PrintField(tt, d)])
  {
  }

  /** The object is printed as its type name and these texts. */
  lemma ObjectPrinted(tt: TimeText, o: Stored, parts: seq<string>)
    requires PrintedAs(tt, FieldsOf(o), parts)
    ensures AsJson(tt, o) == ObjectText(TypeName(o), parts)
  {
    FieldsAreJoined(tt, FieldsOf(o));
    InBraces(InQuotes(TypeName(o)), Joined(parts));
  }

  lemma InBraces(a: string, b: string)
    ensures ((a + ": ") + "{") + b + "}" == a + ": " + ("{" + b + "}")
  {
  }

  lemma UserTailPrinted(tt: TimeText, o: Stored)
    requires o.User?
    ensures PrintedAs(tt, UserTail(o), UserText(o))
  {
    UserSinglesPrinted(tt, o);
    UserListsPrinted(tt, o);
    PrintedBoth(tt, UserSingles(o), UserLists(o), UserText(o)[..4], UserText(o)[4..]);
    assert UserText(o)[..4] + UserText(o)[4..] == UserText(o);
  }

  lemma UserSinglesPrinted(tt: TimeText, o: Stored)
    requires o.User?
    ensures PrintedAs(tt, UserSingles(o), UserText(o)[..4])
  {
    TextPrinted(tt, "UserId", o.userId);
    TextPrinted(tt, "DefaultRepoId", o.defaultRepoId);
    TextPrinted(tt, "EmailAddress", o.emailAddress);
    BoolPrinted(tt, "EmailIsVerified", o.emailIsVerified);
  }

  lemma UserListsPrinted(tt: TimeText, o: Stored)
    requires o.User?
    ensures PrintedAs(tt, UserLists(o), UserText(o)[4..])
  {
    BytesPrinted(tt, "PasswordHash", o.passwordHash);
    IdsPrinted(tt, "GroupIds", o.groupIds);
    IdsPrinted(tt, "MostRecentLoginAttempts", o.loginAttempts);
    IdsPrinted(tt, "EventIds", o.eventIds);
    FourPrinted(tt, Field("PasswordHash", ListOf(Numbers(o.passwordHash))), L("GroupIds", o.groupIds),
                L("MostRecentLoginAttempts", o.loginAttempts), L("EventIds", o.eventIds));
  }

  lemma UserPrinted(tt: TimeText, o: Stored)
    requires o.User?
    ensures AsJson(tt, o) == TextOf(tt, o)
  {
    PartyPrinted(tt, o.party);
    UserTailPrinted(tt, o);
    UserParts(o);
    PrintedBoth(tt, PartyFields(o.party), UserTail(o), PartyText(tt, o.party), UserText(o));
    ObjectPrinted(tt, o, PartyText(tt, o.party) + UserText(o));
  }

  lemma GroupTailPrinted(tt: TimeText, o: Stored)
    requires o.Group?
    ensures PrintedAs(tt, GroupTail(o), GroupText(o))
  {
    TextPrinted(tt, "Description", o.description);
    IdsPrinted(tt, "UserObjIds", o.userObjIds);
  }

  lemma GroupPrinted(tt: TimeText, o: Stored)
    requires o.Group?
    ensures AsJson(tt, o) == TextOf(tt, o)
  {
    PartyPrinted(tt, o.party);
    GroupTailPrinted(tt, o);
    GroupParts(o);
    PrintedBoth(tt, PartyFields(o.party), GroupTail(o), PartyText(tt, o.party), GroupText(o));
    ObjectPrinted(tt, o, PartyText(tt, o.party) + GroupText(o));
  }

  lemma RealmTailPrinted(tt: TimeText, o: Stored)
    requires o.Realm?
    ensures PrintedAs(tt, RealmTail(o), RealmText(o))
  {
    TextPrinted(tt, "AdminUserId", o.adminUserId);
    TextPrinted(tt, "OrgFullName", o.orgFullName);
    IdsPrinted(tt, "UserObjIds", o.userObjIds);
    IdsPrinted(tt, "GroupIds", o.groupIds);
    IdsPrinted(tt, "RepoIds", o.repoIds);
    TextPrinted(tt, "FileDirectory", o.fileDirectory);
    SixPrinted(tt, S("AdminUserId", o.adminUserId), S("OrgFullName", o.orgFullName), L("UserObjIds", o.userObjIds),
               L("GroupIds", o.groupIds), L("RepoIds", o.repoIds), S("FileDirectory", o.fileDirectory));
  }

  lemma RealmPrinted(tt: TimeText, o: Stored)
    requires o.Realm?
    ensures AsJson(tt, o) == TextOf(tt, o)
  {
    ResourcePrinted(tt, o.resource);
    RealmTailPrinted(tt, o);
    RealmParts(o);
    PrintedBoth(tt, ResourceFields(o.resource), RealmTail(o), ResourceText(tt, o.resource), RealmText(o));
    ObjectPrinted(tt, o, ResourceText(tt, o.resource) + RealmText(o));
  }

  lemma RepoTailPrinted(tt: TimeText, o: Stored)
    requires o.Repo?
    ensures PrintedAs(tt, RepoTail(o), RepoText(o))
  {
    IdsPrinted(tt, "DefaultUserIds", o.defaultUserIds);
    IdsPrinted(tt, "DockerFieldIds", o.dockerfileIds);
    IdsPrinted(tt, "DockerImageIds", o.dockerImageIds);
    IdsPrinted(tt, "ScanConfigIds", o.scanConfigIds);
    IdsPrinted(tt, "FlagIds", o.flagIds);
    TextPrinted(tt, "FileDirectory", o.fileDirectory);
    SixPrinted(tt, L("DefaultUserIds", o.defaultUserIds), L("DockerFieldIds", o.dockerfileIds),
               L("DockerImageIds", o.dockerImageIds), L("ScanConfigIds", o.scanConfigIds), L("FlagIds", o.flagIds),
               S("FileDirectory", o.fileDirectory));
  }

  lemma RepoPrinted(tt: TimeText, o: Stored)
    requires o.Repo?
    ensures AsJson(tt, o) == TextOf(tt, o)
  {
    ResourcePrinted(tt, o.resource);
    RepoTailPrinted(tt, o);
    RepoParts(o);
    PrintedBoth(tt, ResourceFields(o.resource), RepoTail(o), ResourceText(tt, o.resource), RepoText(o));
    ObjectPrinted(tt, o, ResourceText(tt, o.resource) + RepoText(o));
  }

  lemma DockerfileTailPrinted(tt: TimeText, o: Stored)
    requires o.Dockerfile?
    ensures PrintedAs(tt, DockerfileTail(o), DockerfileText(o))
  {
    TextPrinted(tt, "FilePath", o.filePath);
    IdsPrinted(tt, "DockerfileExecEventIds", o.execEventIds);
  }

  lemma DockerfilePrinted(tt: TimeText, o: Stored)
    requires o.Dockerfile?
    ensures AsJson(tt, o) == TextOf(tt, o)
  {
    ResourcePrinted(tt, o.resource);
    DockerfileTailPrinted(tt, o);
    DockerfileParts(o);
    PrintedBoth(tt, ResourceFields(o.resource), DockerfileTail(o), ResourceText(tt, o.resource), DockerfileText(o));
    ObjectPrinted(tt, o, ResourceText(tt, o.resource) + DockerfileText(o));
  }

  lemma DockerImageTailPrinted(tt: TimeText, o: Stored)
    requires o.DockerImage?
    ensures PrintedAs(tt, DockerImageTail(o), DockerImageText(o))
  {
    IdsPrinted(tt, "VersionIds", o.versionIds);
    IdsPrinted(tt, "ScanConfigsToUse", o.scanConfigsToUse);
  }

  lemma DockerImagePrinted(tt: TimeText, o: Stored)
    requires o.DockerImage?
    ensures AsJson(tt, o) == TextOf(tt, o)
  {
    ResourcePrinted(tt, o.resource);
    DockerImageTailPrinted(tt, o);
    DockerImageParts(o);
    PrintedBoth(tt, ResourceFields(o.resource), DockerImageTail(o), ResourceText(tt, o.resource), DockerImageText(o));
    ObjectPrinted(tt, o, ResourceText(tt, o.resource) + DockerImageText(o));
  }

  lemma ScanConfigTailPrinted(tt: TimeText, o: Stored)
    requires o.ScanConfig?
    ensures PrintedAs(tt, ScanConfigTail(o), ScanConfigText(o))
  {
    TextPrinted(tt, "SuccessExpression", o.successExpression);
    TextPrinted(tt, "ProviderName", o.providerName);
    IdsPrinted(tt, "ParameterValueIds", o.parameterValueIds);
    TextPrinted(tt, "FlagId", o.flagId);
    IdsPrinted(tt, "ScanEventIds", o.scanEventIds);
    IdsPrinted(tt, "DockerImageIdsThatUse", o.imagesThatUse);
    SixPrinted(tt, S("SuccessExpression", o.successExpression), S("ProviderName", o.providerName),
               L("ParameterValueIds", o.parameterValueIds), S("FlagId", o.flagId), L("ScanEventIds", o.scanEventIds),
               L("DockerImageIdsThatUse", o.imagesThatUse));
  }

  lemma ScanConfigPrinted(tt: TimeText, o: Stored)
    requires o.ScanConfig?
    ensures AsJson(tt, o) == TextOf(tt, o)
  {
    ResourcePrinted(tt, o.resource);
    ScanConfigTailPrinted(tt, o);
    ScanConfigParts(o);
    PrintedBoth(tt, ResourceFields(o.resource), ScanConfigTail(o), ResourceText(tt, o.resource), ScanConfigText(o));
    ObjectPrinted(tt, o, ResourceText(tt, o.resource) + ScanConfigText(o));
  }

  lemma FlagTailPrinted(tt: TimeText, o: Stored)
    requires o.Flag?
    ensures PrintedAs(tt, FlagTail(o), FlagText(o))
  {
    TextPrinted(tt, "SuccessImagePath", o.successImagePath);
    IdsPrinted(tt, "UsedByScanConfigIds", o.usedByScanConfigIds);
  }

  lemma FlagPrinted(tt: TimeText, o: Stored)
    requires o.Flag?
    ensures AsJson(tt, o) == TextOf(tt, o)
  {
    ResourcePrinted(tt, o.resource);
    FlagTailPrinted(tt, o);
    FlagParts(o);
    PrintedBoth(tt, ResourceFields(o.resource), FlagTail(o), ResourceText(tt, o.resource), FlagText(o));
    ObjectPrinted(tt, o, ResourceText(tt, o.resource) + FlagText(o));
  }

  lemma EntryPrinted(tt: TimeText, o: Stored)
    requires o.ACLEntry?
    ensures AsJson(tt, o) == TextOf(tt, o)
  {
    TextPrinted(tt, "Id", o.id);
    TextPrinted(tt, "ResourceId", o.resourceId);
    TextPrinted(tt, "PartyId", o.partyId);
    BitsPrinted(tt, "PermissionMask", o.permissionMask);
    ObjectPrinted(tt, o, [TextField("Id", o.id), TextField("ResourceId", o.resourceId), TextField("PartyId", o.partyId),
                          BitsField("PermissionMask", o.permissionMask)]);
  }

  lemma InfoPrinted(tt: TimeText, o: Stored)
    requires o.IdentityValidationInfo?
    ensures AsJson(tt, o) == TextOf(tt, o)
  {
    TextPrinted(tt, "Id", o.id);
    TextPrinted(tt, "UserId", o.userId);
    TimePrinted(tt, "CreationTime", o.creationTime);
    ObjectPrinted(tt, o, [TextField("Id", o.id), TextField("UserId", o.userId), TimeField(tt, "CreationTime", o.creationTime)]);
  }

  /** The printers of the ten types write the text that is spelled out above. */
  lemma AsJsonIsText(tt: TimeText, o: Stored)
    ensures AsJson(tt, o) == TextOf(tt, o)
  {
    if o.User? {
      UserPrinted(tt, o);
    } else if o.Group? {
      GroupPrinted(tt, o);
    } else if o.ACLEntry? {
      EntryPrinted(tt, o);
    } else if o.Realm? {
      RealmPrinted(tt, o);
    } else if o.Repo? {
      RepoPrinted(tt, o);
    } else if o.Dockerfile? {
      DockerfilePrinted(tt, o);
    } else if o.DockerImage? {
      DockerImagePrinted(tt, o);
    } else if o.ScanConfig? {
      ScanConfigPrinted(tt, o);
    } else if o.Flag? {
      FlagPrinted(tt, o);
    } else {
      InfoPrinted(tt, o);
    }
  }
}
