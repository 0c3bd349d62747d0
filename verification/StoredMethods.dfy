/** Printing and rebuilding stored objects as the program does it: with loops that append to a text and rewrite an array. */
module StoredMethods {
  import opened Basics
  import opened JsonReader
  import opened JsonParser
  import opened JsonRoundTrip
  import opened JsonPrinter
  import opened StoredObjects

  // ----- asJSON -----

  lemma PartyFieldsAre(p: PartyData) returns (t: seq<Field>)
    ensures |t| == 6 && t == PartyFields(p)
    ensures t[0] == S("Id", p.id) && t[1] == B("IsActive", p.isActive) && t[2] == S("Name", p.name)
    ensures t[3] == T("CreationTime", p.creationTime) && t[4] == S("RealmId", p.realmId)
    ensures t[5] == L("ACLEntryIds", p.aclEntryIds)
  {
    t := PartyFields(p);
  }

  lemma ResourceFieldsAre(r: ResourceData) returns (t: seq<Field>)
    ensures |t| == 6 && t == ResourceFields(r)
    ensures t[0] == S("Id", r.id) && t[1] == L("ACLEntryIds", r.aclEntryIds) && t[2] == S("Name", r.name)
    ensures t[3] == S("Description", r.description) && t[4] == S("ParentId", r.parentId)
    ensures t[5] == T("CreationTime", r.creationTime)
  {
    t := ResourceFields(r);
  }

  /** A list of six, and of fewer, put together one by one. */
  lemma OneByOne(t: seq<Field>)
    requires 3 <= |t| <= 6
    ensures |t| == 3 ==> [t[0]] + [t[1]] + [t[2]] == t
    ensures |t| == 4 ==> [t[0]] + [t[1]] + [t[2]] + [t[3]] == t
    ensures |t| == 6 ==> [t[0]] + [t[1]] + [t[2]] + [t[3]] + [t[4]] + [t[5]] == t
  {
  }

  /** partyFieldsAsJSON */
  method PartyFieldsAsJson(tt: TimeText, open: string, p: PartyData) returns (json: string)
    ensures Printed(tt, open, PartyFields(p), json)
  {
    ghost var t := PartyFieldsAre(p);
    ghost var fs := [t[0]];
    json := PrintId(tt, open, p.id);
    json := AddBool(tt, open, fs, json, "IsActive", p.isActive);
    fs := fs + [t[1]];
    json := AddString(tt, open, fs, json, "Name", p.name);
    fs := fs + [t[2]];
    json := AddTime(tt, open, fs, json, "CreationTime", p.creationTime);
    fs := fs + [t[3]];
    json := AddString(tt, open, fs, json, "RealmId", p.realmId);
    fs := fs + [t[4]];
    json := AddList(tt, open, fs, json, "ACLEntryIds", Texts(p.aclEntryIds));
    OneByOne(t);
  }

  /** resourceFieldsAsJSON, with aclFieldsAsJSON */
  method ResourceFieldsAsJson(tt: TimeText, open: string, r: ResourceData) returns (json: string)
    ensures Printed(tt, open, ResourceFields(r), json)
  {
    ghost var t := ResourceFieldsAre(r);
    ghost var fs := [t[0]];
    json := PrintId(tt, open, r.id);
    json := AddList(tt, open, fs, json, "ACLEntryIds", Texts(r.aclEntryIds));
    fs := fs + [t[1]];
    json := AddString(tt, open, fs, json, "Name", r.name);
    fs := fs + [t[2]];
    json := AddString(tt, open, fs, json, "Description", r.description);
    fs := fs + [t[3]];
    json := AddString(tt, open, fs, json, "ParentId", r.parentId);
    fs := fs + [t[4]];
    json := AddTime(tt, open, fs, json, "CreationTime", r.creationTime);
    OneByOne(t);
  }

  lemma Chain2(p: seq<Field>, t: seq<Field>)
    requires |t| == 2
    ensures p + [t[0]] + [t[1]] == p + t
  {
  }

  lemma Chain6(p: seq<Field>, t: seq<Field>)
    requires |t| == 6
    ensures p + [t[0]] + [t[1]] + [t[2]] + [t[3]] + [t[4]] + [t[5]] == p + t
  {
  }

  lemma Chain8(p: seq<Field>, t: seq<Field>)
    requires |t| == 8
    ensures p + [t[0]] + [t[1]] + [t[2]] + [t[3]] + [t[4]] + [t[5]] + [t[6]] + [t[7]] == p + t
  {
  }

  /** The fields of the larger types after the shared ones, one by one. */
  lemma UserTailIs(o: Stored) returns (t: seq<Field>)
    requires o.User?
    ensures |t| == 8 && FieldsOf(o) == PartyFields(o.party) + t
    ensures t[0] == S("UserId", o.userId)
    ensures t[1] == S("DefaultRepoId", o.defaultRepoId)
    ensures t[2] == S("EmailAddress", o.emailAddress)
    ensures t[3] == B("EmailIsVerified", o.emailIsVerified)
    ensures t[4] == Field("PasswordHash", ListOf(Numbers(o.passwordHash)))
    ensures t[5] == L("GroupIds", o.groupIds)
    ensures t[6] == L("MostRecentLoginAttempts", o.loginAttempts)
    ensures t[7] == L("EventIds", o.eventIds)
  {
    t := UserTail(o);
  }

  lemma GroupTailIs(o: Stored) returns (t: seq<Field>)
    requires o.Group?
    ensures |t| == 2 && FieldsOf(o) == PartyFields(o.party) + t
    ensures t[0] == S("Description", o.description) && t[1] == L("UserObjIds", o.userObjIds)
  {
    t := GroupTail(o);
  }

  lemma DockerfileTailIs(o: Stored) returns (t: seq<Field>)
    requires o.Dockerfile?
    ensures |t| == 2 && FieldsOf(o) == ResourceFields(o.resource) + t
    ensures t[0] == S("FilePath", o.filePath) && t[1] == L("DockerfileExecEventIds", o.execEventIds)
  {
    t := DockerfileTail(o);
  }

  lemma DockerImageTailIs(o: Stored) returns (t: seq<Field>)
    requires o.DockerImage?
    ensures |t| == 2 && FieldsOf(o) == ResourceFields(o.resource) + t
    ensures t[0] == L("VersionIds", o.versionIds) && t[1] == L("ScanConfigsToUse", o.scanConfigsToUse)
  {
    t := DockerImageTail(o);
  }

  lemma FlagTailIs(o: Stored) returns (t: seq<Field>)
    requires o.Flag?
    ensures |t| == 2 && FieldsOf(o) == ResourceFields(o.resource) + t
    ensures t[0] == S("SuccessImagePath", o.successImagePath) && t[1] == L("UsedByScanConfigIds", o.usedByScanConfigIds)
  {
    t := FlagTail(o);
  }

  lemma EntryFieldsAre(o: Stored) returns (t: seq<Field>)
    requires o.ACLEntry?
    ensures |t| == 4 && FieldsOf(o) == t
    ensures t[0] == S("Id", o.id) && t[1] == S("ResourceId", o.resourceId) && t[2] == S("PartyId", o.partyId)
    ensures t[3] == Field("PermissionMask", ListOf(Flags(o.permissionMask)))
  {
    t := EntryFields(o);
  }

  lemma InfoFieldsAre(o: Stored) returns (t: seq<Field>)
    requires o.IdentityValidationInfo?
    ensures |t| == 3 && FieldsOf(o) == t
    ensures t[0] == S("Id", o.id) && t[1] == S("UserId", o.userId) && t[2] == T("CreationTime", o.creationTime)
  {
    t := InfoFields(o);
  }

  lemma RealmTailIs(o: Stored) returns (t: seq<Field>)
    requires o.Realm?
    ensures |t| == 6 && FieldsOf(o) == ResourceFields(o.resource) + t
    ensures t[0] == S("AdminUserId", o.adminUserId)
    ensures t[1] == S("OrgFullName", o.orgFullName)
    ensures t[2] == L("UserObjIds", o.userObjIds)
    ensures t[3] == L("GroupIds", o.groupIds)
    ensures t[4] == L("RepoIds", o.repoIds)
    ensures t[5] == S("FileDirectory", o.fileDirectory)
  {
    t := RealmTail(o);
  }

  lemma RepoTailIs(o: Stored) returns (t: seq<Field>)
    requires o.Repo?
    ensures |t| == 6 && FieldsOf(o) == ResourceFields(o.resource) + t
    ensures t[0] == L("DefaultUserIds", o.defaultUserIds)
    ensures t[1] == L("DockerFieldIds", o.dockerfileIds)
    ensures t[2] == L("DockerImageIds", o.dockerImageIds)
    ensures t[3] == L("ScanConfigIds", o.scanConfigIds)
    ensures t[4] == L("FlagIds", o.flagIds)
    ensures t[5] == S("FileDirectory", o.fileDirectory)
  {
    t := RepoTail(o);
  }

  lemma ScanConfigTailIs(o: Stored) returns (t: seq<Field>)
    requires o.ScanConfig?
    ensures |t| == 6 && FieldsOf(o) == ResourceFields(o.resource) + t
    ensures t[0] == S("SuccessExpression", o.successExpression)
    ensures t[1] == S("ProviderName", o.providerName)
    ensures t[2] == L("ParameterValueIds", o.parameterValueIds)
    ensures t[3] == S("FlagId", o.flagId)
    ensures t[4] == L("ScanEventIds", o.scanEventIds)
    ensures t[5] == L("DockerImageIdsThatUse", o.imagesThatUse)
  {
    t := ScanConfigTail(o);
  }

  /** The closing brace makes the printed fields the text of the object. */
  lemma Finished(tt: TimeText, o: Stored, json: string)
    requires Printed(tt, Opening(o), FieldsOf(o), json)
    ensures json + "}" == AsJson(tt, o)
  {
  }

  method UserAsJson(tt: TimeText, o: Stored) returns (json: string)
    requires o.User?
    ensures json == AsJson(tt, o)
  {
    ghost var fs := PartyFields(o.party);
    ghost var t := UserTailIs(o);
    var open := Key("User") + "{";
    json := PartyFieldsAsJson(tt, open, o.party);
    json := AddString(tt, open, fs, json, "UserId", o.userId);
    fs := fs + [t[0]];
    json := AddString(tt, open, fs, json, "DefaultRepoId", o.defaultRepoId);
    fs := fs + [t[1]];
    json := AddString(tt, open, fs, json, "EmailAddress", o.emailAddress);
    fs := fs + [t[2]];
    json := AddBool(tt, open, fs, json, "EmailIsVerified", o.emailIsVerified);
    fs := fs + [t[3]];
    json := AddList(tt, open, fs, json, "PasswordHash", Numbers(o.passwordHash));
    fs := fs + [t[4]];
    json := AddList(tt, open, fs, json, "GroupIds", Texts(o.groupIds));
    fs := fs + [t[5]];
    json := AddList(tt, open, fs, json, "MostRecentLoginAttempts", Texts(o.loginAttempts));
    fs := fs + [t[6]];
    json := AddList(tt, open, fs, json, "EventIds", Texts(o.eventIds));
    Chain8(PartyFields(o.party), t);
    Finished(tt, o, json);
    json := json + "}";
  }

  method GroupAsJson(tt: TimeText, o: Stored) returns (json: string)
    requires o.Group?
    ensures json == AsJson(tt, o)
  {
    ghost var fs := PartyFields(o.party);
    ghost var t := GroupTailIs(o);
    var open := Key("Group") + "{";
    json := PartyFieldsAsJson(tt, open, o.party);
    json := AddString(tt, open, fs, json, "Description", o.description);
    fs := fs + [t[0]];
    json := AddList(tt, open, fs, json, "UserObjIds", Texts(o.userObjIds));
    Chain2(PartyFields(o.party), t);
    Finished(tt, o, json);
    json := json + "}";
  }

  method EntryAsJson(tt: TimeText, o: Stored) returns (json: string)
    requires o.ACLEntry?
    ensures json == AsJson(tt, o)
  {
    ghost var t := EntryFieldsAre(o);
    ghost var fs := [t[0]];
    var open := Key("ACLEntry") + "{";
    json := PrintId(tt, open, o.id);
    json := AddString(tt, open, fs, json, "ResourceId", o.resourceId);
    fs := fs + [t[1]];
    json := AddString(tt, open, fs, json, "PartyId", o.partyId);
    fs := fs + [t[2]];
    json := AddList(tt, open, fs, json, "PermissionMask", Flags(o.permissionMask));
    OneByOne(t);
    Finished(tt, o, json);
    json := json + "}";
  }

  method RealmAsJson(tt: TimeText, o: Stored) returns (json: string)
    requires o.Realm?
    ensures json == AsJson(tt, o)
  {
    ghost var fs := ResourceFields(o.resource);
    ghost var t := RealmTailIs(o);
    var open := Key("Realm") + "{";
    json := ResourceFieldsAsJson(tt, open, o.resource);
    json := AddString(tt, open, fs, json, "AdminUserId", o.adminUserId);
    fs := fs + [t[0]];
    json := AddString(tt, open, fs, json, "OrgFullName", o.orgFullName);
    fs := fs + [t[1]];
    json := AddList(tt, open, fs, json, "UserObjIds", Texts(o.userObjIds));
    fs := fs + [t[2]];
    json := AddList(tt, open, fs, json, "GroupIds", Texts(o.groupIds));
    fs := fs + [t[3]];
    json := AddList(tt, open, fs, json, "RepoIds", Texts(o.repoIds));
    fs := fs + [t[4]];
    json := AddString(tt, open, fs, json, "FileDirectory", o.fileDirectory);
    Chain6(ResourceFields(o.resource), t);
    Finished(tt, o, json);
    json := json + "}";
  }

  method RepoAsJson(tt: TimeText, o: Stored) returns (json: string)
    requires o.Repo?
    ensures json == AsJson(tt, o)
  {
    ghost var fs := ResourceFields(o.resource);
    ghost var t := RepoTailIs(o);
    var open := Key("Repo") + "{";
    json := ResourceFieldsAsJson(tt, open, o.resource);
    json := AddList(tt, open, fs, json, "DefaultUserIds", Texts(o.defaultUserIds));
    fs := fs + [t[0]];
    json := AddList(tt, open, fs, json, "DockerFieldIds", Texts(o.dockerfileIds));
    fs := fs + [t[1]];
    json := AddList(tt, open, fs, json, "DockerImageIds", Texts(o.dockerImageIds));
    fs := fs + [t[2]];
    json := AddList(tt, open, fs, json, "ScanConfigIds", Texts(o.scanConfigIds));
    fs := fs + [t[3]];
    json := AddList(tt, open, fs, json, "FlagIds", Texts(o.flagIds));
    fs := fs + [t[4]];
    json := AddString(tt, open, fs, json, "FileDirectory", o.fileDirectory);
    Chain6(ResourceFields(o.resource), t);
    Finished(tt, o, json);
    json := json + "}";
  }

  method DockerfileAsJson(tt: TimeText, o: Stored) returns (json: string)
    requires o.Dockerfile?
    ensures json == AsJson(tt, o)
  {
    ghost var fs := ResourceFields(o.resource);
    ghost var t := DockerfileTailIs(o);
    var open := Key("Dockerfile") + "{";
    json := ResourceFieldsAsJson(tt, open, o.resource);
    json := AddString(tt, open, fs, json, "FilePath", o.filePath);
    fs := fs + [t[0]];
    json := AddList(tt, open, fs, json, "DockerfileExecEventIds", Texts(o.execEventIds));
    Chain2(ResourceFields(o.resource), t);
    Finished(tt, o, json);
    json := json + "}";
  }

  method DockerImageAsJson(tt: TimeText, o: Stored) returns (json: string)
    requires o.DockerImage?
    ensures json == AsJson(tt, o)
  {
    ghost var fs := ResourceFields(o.resource);
    ghost var t := DockerImageTailIs(o);
    var open := Key("DockerImage") + "{";
    json := ResourceFieldsAsJson(tt, open, o.resource);
    json := AddList(tt, open, fs, json, "VersionIds", Texts(o.versionIds));
    fs := fs + [t[0]];
    json := AddList(tt, open, fs, json, "ScanConfigsToUse", Texts(o.scanConfigsToUse));
    Chain2(ResourceFields(o.resource), t);
    Finished(tt, o, json);
    json := json + "}";
  }

  method ScanConfigAsJson(tt: TimeText, o: Stored) returns (json: string)
    requires o.ScanConfig?
    ensures json == AsJson(tt, o)
  {
    ghost var fs := ResourceFields(o.resource);
    ghost var t := ScanConfigTailIs(o);
    var open := Key("ScanConfig") + "{";
    json := ResourceFieldsAsJson(tt, open, o.resource);
    json := AddString(tt, open, fs, json, "SuccessExpression", o.successExpression);
    fs := fs + [t[0]];
    json := AddString(tt, open, fs, json, "ProviderName", o.providerName);
    fs := fs + [t[1]];
    json := AddList(tt, open, fs, json, "ParameterValueIds", Texts(o.parameterValueIds));
    fs := fs + [t[2]];
    json := AddString(tt, open, fs, json, "FlagId", o.flagId);
    fs := fs + [t[3]];
    json := AddList(tt, open, fs, json, "ScanEventIds", Texts(o.scanEventIds));
    fs := fs + [t[4]];
    json := AddList(tt, open, fs, json, "DockerImageIdsThatUse", Texts(o.imagesThatUse));
    Chain6(ResourceFields(o.resource), t);
    Finished(tt, o, json);
    json := json + "}";
  }

  method FlagAsJson(tt: TimeText, o: Stored) returns (json: string)
    requires o.Flag?
    ensures json == AsJson(tt, o)
  {
    ghost var fs := ResourceFields(o.resource);
    ghost var t := FlagTailIs(o);
    var open := Key("Flag") + "{";
    json := ResourceFieldsAsJson(tt, open, o.resource);
    json := AddString(tt, open, fs, json, "SuccessImagePath", o.successImagePath);
    fs := fs + [t[0]];
    json := AddList(tt, open, fs, json, "UsedByScanConfigIds", Texts(o.usedByScanConfigIds));
    Chain2(ResourceFields(o.resource), t);
    Finished(tt, o, json);
    json := json + "}";
  }

  method InfoAsJson(tt: TimeText, o: Stored) returns (json: string)
    requires o.IdentityValidationInfo?
    ensures json == AsJson(tt, o)
  {
    ghost var t := InfoFieldsAre(o);
    ghost var fs := [t[0]];
    var open := Key("IdentityValidationInfo") + "{";
    json := PrintId(tt, open, o.id);
    json := AddString(tt, open, fs, json, "UserId", o.userId);
    fs := fs + [t[1]];
    json := AddTime(tt, open, fs, json, "CreationTime", o.creationTime);
    OneByOne(t);
    Finished(tt, o, json);
    json := json + "}";
  }

  // ----- ReconstituteObject -----

  /** The inner loop: the elements of a list, converted one by one; None is the run-time error of a conversion. */
  method ConvertElements(e: Env, vs: seq<Value>, t: Type) returns (r: Option<seq<Value>>)
    ensures r.Some? <==> Converts(e, vs, t)
    ensures r.Some? ==> r.value == Converted(e, vs, t)
  {
    var converted: seq<Value> := [];
    for k := 0 to |vs|
      invariant |converted| == k
      invariant forall j :: 0 <= j < k ==> ConvertElement(e, vs[j], t) == Some(converted[j])
    {
      var c := ConvertElement(e, vs[k], t);
      if c.None? { return None; }
      converted := converted + [c.value];
    }
    r := Some(converted);
  }

  /** The outer loop: each list among the arguments is replaced by one of the parameter's type, and types are checked. */
  method FitArguments(e: Env, arguments: array<MaybeValue>, formals: seq<Type>) returns (ok: bool)
    requires arguments.Length == |formals|
    modifies arguments
    ensures ok <==> Fits(e, old(arguments[..]), formals)
    ensures ok ==> forall k :: 0 <= k < |formals| ==> arguments[k] == Some(Fitted(e, old(arguments[..]), formals)[k])
  {
    ghost var before := arguments[..];
    var a := 0;
    while a < arguments.Length
      invariant 0 <= a <= arguments.Length
      invariant forall k :: 0 <= k < a ==> arguments[k].Some? && arguments[k] == FitArgument(e, before[k], formals[k])
      invariant forall k :: a <= k < arguments.Length ==> arguments[k] == before[k]
    {
      if arguments[a].None? { return false; }
      var v := arguments[a].value;
      if v.ListValue? {
        if !formals[a].SliceType? { return false; }
        var converted := ConvertElements(e, v.elements, formals[a].elem);
        if converted.None? { return false; }
        arguments[a] := Some(ListValue(formals[a].elem, converted.value));
      } else if TypeOf(v) != formals[a] {
        return false;
      }
      a := a + 1;
    }
    ok := true;
  }

  /** ReconstituteObject: the type name, the fields, the check of their number and types, and the constructor. */
  method ReconstituteObject(e: Env, json: string) returns (r: Option<(string, Stored)>)
    ensures r == Reconstitute(e, json)
  {
    var named := RetrieveTypeName(json);
    if named.None? { return None; }
    var (typeName, remainder) := named.value;
    if Formals(typeName) == [] { return None; }
    var parser := new Parser(remainder);
    var fields := parser.Object(e);
    if fields.Err? || fields.value.None? { return None; }
    var o := Construct(e, typeName, fields.value.value);
    r := if o.None? then None else Some((typeName, o.value));
  }

  /** The part of ReconstituteObject behind the parser. */
  method Construct(e: Env, typeName: string, vs: seq<MaybeValue>) returns (o: Option<Stored>)
    requires Formals(typeName) != []
    ensures o == if Fits(e, vs, Formals(typeName)) then Some(Build(typeName, Fitted(e, vs, Formals(typeName)))) else None
  {
    var formals := Formals(typeName);
    if |vs| != |formals| { return None; }
    var arguments := new MaybeValue[|vs|](k requires 0 <= k < |vs| => vs[k]);
    assert arguments[..] == vs;
    var ok := FitArguments(e, arguments, formals);
    if !ok { return None; }
    var a := Values(arguments);
    assert a == Fitted(e, vs, formals);
    o := Some(Build(typeName, a));
  }

  method Values(arguments: array<MaybeValue>) returns (a: seq<Value>)
    requires forall k :: 0 <= k < arguments.Length ==> arguments[k].Some?
    ensures |a| == arguments.Length && forall k :: 0 <= k < |a| ==> Some(a[k]) == arguments[k]
  {
    a := [];
    for i := 0 to arguments.Length
      invariant |a| == i && forall k :: 0 <= k < i ==> Some(a[k]) == arguments[k]
    {
      a := a + [arguments[i].value];
    }
  }
}
