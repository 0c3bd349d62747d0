/** Rebuilding an object from its own text gives the same object, for all ten types. */
module StoredRoundTrip {
  import opened Basics
  import opened JsonTokens
  import opened JsonReader
  import opened JsonRoundTrip
  import opened JsonPrinter
  import opened StoredObjects

  // ----- What the printers write can be read -----

  /** A value of an object, whatever its texts: lists have one type of element, and integers are bytes. */
  predicate MadeValue(v: Value) {
    if v.ListValue? then
      && (v.elements == [] ==> v.elem == AnyType)
      && forall k :: 0 <= k < |v.elements| ==> MadeElement(v.elements[k], v.elem)
    else !v.IntValue?
  }

  predicate MadeElement(v: Value, t: Type) {
    !v.ListValue? && TypeOf(v) == t && (v.IntValue? ==> 0 <= v.i < 256)
  }

  predicate GoodName(name: string) { name != "" && QUOTE !in name }

  predicate Made(f: Field) { GoodName(f.name) && MadeValue(f.value) }

  predicate AllMade(fs: seq<Field>) { forall k :: 0 <= k < |fs| ==> Made(fs[k]) }

  lemma MadeReadable(f: Field)
    requires Made(f) && PlainValue(f.value)
    ensures ReadableField(f)
  {
    if f.value.ListValue? {
      var vs := f.value.elements;
      forall k | 0 <= k < |vs| ensures ReadableSimple(vs[k]) && TypeOf(vs[k]) == f.value.elem {
        assert MadeElement(vs[k], f.value.elem);
      }
    }
  }

  lemma TextMade(name: string, s: string)
    requires GoodName(name)
    ensures Made(S(name, s))
  {
  }

  lemma TruthMade(name: string, b: bool)
    requires GoodName(name)
    ensures Made(B(name, b))
  {
  }

  lemma TimeMade(name: string, i: int)
    requires GoodName(name)
    ensures Made(T(name, i))
  {
  }

  lemma ListMade(name: string, l: Elements)
    requires GoodName(name) && (l.Numbers? ==> forall k :: 0 <= k < |l.bytes| ==> 0 <= l.bytes[k] < 256)
    ensures Made(Field(name, ListOf(l)))
  {
    var vs := ValuesIn(l);
    forall k | 0 <= k < |vs| ensures MadeElement(vs[k], ElementType(l)) { }
  }

  lemma MadeBoth(fs: seq<Field>, gs: seq<Field>)
    requires AllMade(fs) && AllMade(gs)
    ensures AllMade(fs + gs)
  {
  }

  lemma PartyMade(p: PartyData)
    ensures AllMade(PartyFields(p))
  {
    TextMade("Id", p.id);
    TruthMade("IsActive", p.isActive);
    TextMade("Name", p.name);
    TimeMade("CreationTime", p.creationTime);
    TextMade("RealmId", p.realmId);
    ListMade("ACLEntryIds", Texts(p.aclEntryIds));
  }

  lemma ResourceMade(r: ResourceData)
    ensures AllMade(ResourceFields(r))
  {
    TextMade("Id", r.id);
    ListMade("ACLEntryIds", Texts(r.aclEntryIds));
    TextMade("Name", r.name);
    TextMade("Description", r.description);
    TextMade("ParentId", r.parentId);
    TimeMade("CreationTime", r.creationTime);
  }

  lemma LoginAttemptsName()
    ensures GoodName("MostRecentLoginAttempts")
  {
  }

  lemma ImagesThatUseName()
    ensures GoodName("DockerImageIdsThatUse")
  {
  }

  lemma UserListsMade(o: Stored)
    requires o.User?
    ensures AllMade(UserLists(o))
  {
    LoginAttemptsName();
    ListMade("PasswordHash", Numbers(o.passwordHash));
    ListMade("GroupIds", Texts(o.groupIds));
    ListMade("MostRecentLoginAttempts", Texts(o.loginAttempts));
    ListMade("EventIds", Texts(o.eventIds));
  }

  lemma UserSinglesMade(o: Stored)
    requires o.User?
    ensures AllMade(UserSingles(o))
  {
    TextMade("UserId", o.userId);
    TextMade("DefaultRepoId", o.defaultRepoId);
    TextMade("EmailAddress", o.emailAddress);
  }

  lemma UserTailMade(o: Stored)
    requires o.User?
    ensures AllMade(UserTail(o))
  {
    UserSinglesMade(o);
    UserListsMade(o);
    MadeBoth(UserSingles(o), UserLists(o));
  }

  lemma RealmTailMade(o: Stored)
    requires o.Realm?
    ensures AllMade(RealmTail(o))
  {
    TextMade("AdminUserId", o.adminUserId);
    TextMade("OrgFullName", o.orgFullName);
    ListMade("UserObjIds", Texts(o.userObjIds));
    ListMade("GroupIds", Texts(o.groupIds));
    ListMade("RepoIds", Texts(o.repoIds));
    TextMade("FileDirectory", o.fileDirectory);
  }

  lemma RepoTailMade(o: Stored)
    requires o.Repo?
    ensures AllMade(RepoTail(o))
  {
    ListMade("DefaultUserIds", Texts(o.defaultUserIds));
    ListMade("DockerFieldIds", Texts(o.dockerfileIds));
    ListMade("DockerImageIds", Texts(o.dockerImageIds));
    ListMade("ScanConfigIds", Texts(o.scanConfigIds));
    ListMade("FlagIds", Texts(o.flagIds));
    TextMade("FileDirectory", o.fileDirectory);
  }

  lemma ScanConfigTailMade(o: Stored)
    requires o.ScanConfig?
    ensures AllMade(ScanConfigTail(o))
  {
    ImagesThatUseName();
    TextMade("SuccessExpression", o.successExpression);
    TextMade("ProviderName", o.providerName);
    ListMade("ParameterValueIds", Texts(o.parameterValueIds));
    TextMade("FlagId", o.flagId);
    ListMade("ScanEventIds", Texts(o.scanEventIds));
    ListMade("DockerImageIdsThatUse", Texts(o.imagesThatUse));
  }

  lemma EntryMade(o: Stored)
    requires o.ACLEntry?
    ensures AllMade(EntryFields(o))
  {
    TextMade("Id", o.id);
    TextMade("ResourceId", o.resourceId);
    TextMade("PartyId", o.partyId);
    ListMade("PermissionMask", Flags(o.permissionMask));
  }

  lemma GroupTailMade(o: Stored)
    requires o.Group?
    ensures AllMade(GroupTail(o))
  {
    TextMade("Description", o.description);
    ListMade("UserObjIds", Texts(o.userObjIds));
  }

  lemma DockerfileTailMade(o: Stored)
    requires o.Dockerfile?
    ensures AllMade(DockerfileTail(o))
  {
    TextMade("FilePath", o.filePath);
    ListMade("DockerfileExecEventIds", Texts(o.execEventIds));
  }

  lemma DockerImageTailMade(o: Stored)
    requires o.DockerImage?
    ensures AllMade(DockerImageTail(o))
  {
    ListMade("VersionIds", Texts(o.versionIds));
    ListMade("ScanConfigsToUse", Texts(o.scanConfigsToUse));
  }

  lemma FlagTailMade(o: Stored)
    requires o.Flag?
    ensures AllMade(FlagTail(o))
  {
    TextMade("SuccessImagePath", o.successImagePath);
    ListMade("UsedByScanConfigIds", Texts(o.usedByScanConfigIds));
  }

  lemma PartyObjectMade(o: Stored)
    requires o.User? || o.Group?
    ensures AllMade(FieldsOf(o))
  {
    PartyMade(o.party);
    if o.User? {
      UserTailMade(o);
      MadeBoth(PartyFields(o.party), UserTail(o));
    } else {
      GroupTailMade(o);
      MadeBoth(PartyFields(o.party), GroupTail(o));
    }
  }

  lemma ResourceObjectMade(o: Stored)
    requires o.Realm? || o.Repo? || o.Dockerfile? || o.DockerImage? || o.ScanConfig? || o.Flag?
    ensures AllMade(FieldsOf(o))
  {
    var shared := ResourceFields(o.resource);
    ResourceMade(o.resource);
    if o.Realm? {
      RealmTailMade(o);
      MadeBoth(shared, RealmTail(o));
    } else if o.Repo? {
      RepoTailMade(o);
      MadeBoth(shared, RepoTail(o));
    } else if o.ScanConfig? {
      ScanConfigTailMade(o);
      MadeBoth(shared, ScanConfigTail(o));
    } else if o.Dockerfile? {
      DockerfileTailMade(o);
      MadeBoth(shared, DockerfileTail(o));
    } else if o.DockerImage? {
      DockerImageTailMade(o);
      MadeBoth(shared, DockerImageTail(o));
    } else {
      FlagTailMade(o);
      MadeBoth(shared, FlagTail(o));
    }
  }

  lemma InfoMade(o: Stored)
    requires o.IdentityValidationInfo?
    ensures AllMade(InfoFields(o))
  {
  }

  lemma ObjectMade(o: Stored)
    ensures AllMade(FieldsOf(o))
  {
    if o.User? || o.Group? {
      PartyObjectMade(o);
    } else if o.ACLEntry? {
      EntryMade(o);
    } else if o.IdentityValidationInfo? {
      InfoMade(o);
    } else {
      ResourceObjectMade(o);
    }
  }

  lemma ObjectReadable(o: Stored)
    requires PlainObject(o)
    ensures AllReadable(FieldsOf(o))
  {
    ObjectMade(o);
    forall k | 0 <= k < |FieldsOf(o)| ensures ReadableField(FieldsOf(o)[k]) {
      assert Made(FieldsOf(o)[k]);
      MadeReadable(FieldsOf(o)[k]);
    }
  }

  // ----- The type name -----

  lemma TypeNamePlain(o: Stored)
    ensures QUOTE !in TypeName(o)
  {
  }

  lemma TypeNameRead(name: string, after: string)
    requires QUOTE !in name
    ensures RetrieveTypeName(Quoted(name) + (": " + after)) == Some((name, " " + after))
  {
    var s := name + [QUOTE] + (": " + after);
    assert Quoted(name) + (": " + after) == "" + [QUOTE] + s;
    IndexSkips("", QUOTE, s);
    assert ("" + [QUOTE] + s)[1..] == s;
    NameSplit(name, after);
  }

  lemma NameSplit(name: string, after: string)
    requires QUOTE !in name
    ensures NameAndRemainder(name + [QUOTE] + (": " + after)) == Some((name, " " + after))
  {
    var s := name + [QUOTE] + (": " + after);
    IndexSkips(name, QUOTE, ": " + after);
    var tail := [QUOTE] + [':'] + (" " + after);
    assert ": " + after == [':'] + (" " + after);
    assert s == name + tail;
    assert s[..|name|] == name && s[|name|..] == tail;
    IndexSkips([QUOTE], ':', " " + after);
    assert s[|name| + 2..] == tail[2..] == " " + after;
  }

  // ----- The round trip -----

  /** The text of the fields in braces, after a space, is read back. */
  lemma BodyRead(e: Env, tt: TimeText, o: Stored)
    requires Faithful(e, tt) && PlainObject(o)
    ensures AllFlat(FieldsOf(o))
    ensures ParseObject(e, " " + ("{" + PrintFields(tt, FieldsOf(o)) + "}")) == Good(Some(ValuesOf(FieldsOf(o))), "")
  {
    FieldsAreFlat(o);
    ObjectReadable(o);
    FieldsRead(e, tt, FieldsOf(o));
  }

  lemma FieldsRead(e: Env, tt: TimeText, fs: seq<Field>)
    requires Faithful(e, tt) && AllFlat(fs) && AllReadable(fs) && fs != []
    ensures ParseObject(e, " " + ("{" + PrintFields(tt, fs) + "}")) == Good(Some(ValuesOf(fs)), "")
  {
    var s := "{" + PrintFields(tt, fs) + "}";
    ObjectRead(e, tt, fs, "");
    assert s + "" == s;
    ObjectAfterSpace(e, s);
  }

  lemma ObjectAfterSpace(e: Env, s: string)
    ensures ParseObject(e, " " + s) == ParseObject(e, s)
  {
    SpaceSkipped(s);
  }

  lemma TextOf(tt: TimeText, o: Stored)
    ensures AllFlat(FieldsOf(o))
    ensures AsJson(tt, o) == Quoted(TypeName(o)) + (": " + ("{" + PrintFields(tt, FieldsOf(o)) + "}"))
  {
    FieldsAreFlat(o);
    Nested(Quoted(TypeName(o)), PrintFields(tt, FieldsOf(o)));
  }

  lemma Nested(a: string, b: string)
    ensures (((a + ": ") + "{") + b) + "}" == a + (": " + (("{" + b) + "}"))
  {
  }

  /** A text is reconstituted when its body is read as fields that become the arguments of the constructor. */
  lemma Reconstituted(e: Env, name: string, body: string, fs: seq<Field>, formals: seq<Type>, a: seq<Value>)
    requires QUOTE !in name && formals == Formals(name) && formals != []
    requires AllFlat(fs) && ParseObject(e, " " + body) == Good(Some(ValuesOf(fs)), "")
    requires Become(e, fs, formals, a)
    ensures Reconstitute(e, Quoted(name) + (": " + body)) == Some((name, Build(name, a)))
  {
    TypeNameRead(name, body);
    BecomeFitted(e, fs, formals, a);
  }

  /**
  Reading back a printed object gives the same type name and the same object, in every field: for users, groups, ACL
  entries, realms, repos, dockerfiles, docker images, scan configs, flags and identity validation records whose texts
  need no escaping.
  */
  lemma ReconstituteUndoesPrinting(e: Env, tt: TimeText, o: Stored)
    requires Faithful(e, tt) && PlainObject(o)
    ensures Reconstitute(e, AsJson(tt, o)) == Some((TypeName(o), o))
  {
    TextOf(tt, o);
    TypeNamePlain(o);
    BodyRead(e, tt, o);
    var a := ObjectFits(e, o);
    Reconstituted(e, TypeName(o), "{" + PrintFields(tt, FieldsOf(o)) + "}", FieldsOf(o), Formals(TypeName(o)), a);
  }

  /** A value that was read can stand for a parameter of the type: by its own type, or element by element for a list. */
  predicate MayBecome(v: Value, t: Type) {
    if v.ListValue? then t.SliceType? && forall k :: 0 <= k < |v.elements| ==> ElementMayBecome(v.elements[k], t.elem)
    else TypeOf(v) == t
  }

  /** An element of the same type, or an integer for a byte or a string. */
  predicate ElementMayBecome(v: Value, t: Type) {
    t == AnyType || TypeOf(v) == t || (v.IntValue? && (t == ByteType || t == StringType))
  }

  lemma FitIff(e: Env, v: Value, t: Type)
    ensures FitArgument(e, Some(v), t).Some? <==> MayBecome(v, t)
  {
    if v.ListValue? && t.SliceType? {
      forall k | 0 <= k < |v.elements|
        ensures ConvertElement(e, v.elements[k], t.elem).Some? <==> ElementMayBecome(v.elements[k], t.elem)
      {
      }
    }
  }

  lemma FitsIff(e: Env, fs: seq<Field>, formals: seq<Type>)
    ensures Fits(e, ValuesOf(fs), formals) <==> |fs| == |formals| && forall k :: 0 <= k < |fs| ==> MayBecome(fs[k].value, formals[k])
  {
    if |fs| == |formals| {
      forall k | 0 <= k < |fs| ensures FitArgument(e, ValuesOf(fs)[k], formals[k]).Some? <==> MayBecome(fs[k].value, formals[k]) {
        FitIff(e, fs[k].value, formals[k]);
      }
    }
  }

  /**
  Whatever fields are printed under whatever name, an object is made of them exactly when there is a type of that name
  whose constructor has as many parameters as there are fields, and each field can stand for its parameter.
  */
  lemma ReconstituteIff(e: Env, tt: TimeText, name: string, fs: seq<Field>)
    requires Faithful(e, tt) && AllReadable(fs) && fs != [] && QUOTE !in name
    ensures AllFlat(fs)
    ensures Reconstitute(e, Quoted(name) + (": " + ("{" + PrintFields(tt, fs) + "}"))).Some? <==>
      |fs| == |Formals(name)| && forall k :: 0 <= k < |fs| ==> MayBecome(fs[k].value, Formals(name)[k])
  {
    ReadableIsFlat(fs);
    TypeNameRead(name, "{" + PrintFields(tt, fs) + "}");
    FieldsRead(e, tt, fs);
    FitsIff(e, fs, Formals(name));
  }

  /** So different objects are printed differently. */
  lemma AsJsonInjective(e: Env, tt: TimeText, a: Stored, b: Stored)
    requires Faithful(e, tt) && PlainObject(a) && PlainObject(b) && AsJson(tt, a) == AsJson(tt, b)
    ensures a == b
  {
    ReconstituteUndoesPrinting(e, tt, a);
    ReconstituteUndoesPrinting(e, tt, b);
  }
}
