/**
Names within a realm or a repo: the searches by name, and the two searches for a name nobody has
(createUniqueRepoName and createUniqueDockerImageName).
*/
module Names {
  import opened Basics
  import opened ObjectStore
  import Decimal

  /** The kind of object a list of ids is supposed to name. */
  datatype MemberKind =
    | RepoMember | DockerfileMember | ImageMember | ScanConfigMember | FlagMember | UserMember | GroupMember

  predicate IsMember(s: State, id: Id, kind: MemberKind) {
    match kind
    case RepoMember => IsRepo(s, id)
    case DockerfileMember => IsDockerfile(s, id)
    case ImageMember => IsImage(s, id)
    case ScanConfigMember => IsScanConfig(s, id)
    case FlagMember => IsFlag(s, id)
    case UserMember => IsUser(s, id)
    case GroupMember => IsGroup(s, id)
  }

  /** The result of a search by name; `Broken` is the error for an id that names nothing of the right type. */
  datatype ByName = Named(id: Id) | NotNamed | Broken

  /** The loops of getRepoByName, getDockerfileByName, getUserByName, getGroupByName and the like. */
  function FindByName(s: State, ids: seq<Id>, name: string, kind: MemberKind): ByName {
    if ids == [] then NotNamed
    else if !IsMember(s, ids[0], kind) then Broken
    else if s[ids[0]].name == name then Named(ids[0])
    else FindByName(s, ids[1..], name, kind)
  }

  /** Every id of the list names an object of the kind. */
  ghost predicate MembersLive(s: State, ids: seq<Id>, kind: MemberKind) {
    forall x :: x in ids ==> IsMember(s, x, kind)
  }

  /** Some member has the name. */
  ghost predicate Taken(s: State, ids: seq<Id>, kind: MemberKind, name: string) {
    exists x :: x in ids && IsMember(s, x, kind) && s[x].name == name
  }

  lemma {:induction false} FindByNameMeans(s: State, ids: seq<Id>, name: string, kind: MemberKind)
    requires MembersLive(s, ids, kind)
    ensures match FindByName(s, ids, name, kind)
            case Named(x) => x in ids && IsMember(s, x, kind) && s[x].name == name
            case NotNamed => !Taken(s, ids, kind, name)
            case Broken => false
  {
    if ids != [] {
      assert forall x :: x in ids <==> x == ids[0] || x in ids[1..];
      FindByNameMeans(s, ids[1..], name, kind);
    }
  }

  /** The ids before position `k` name objects of the kind that have other names. */
  ghost predicate OthersBefore(s: State, ids: seq<Id>, name: string, kind: MemberKind, k: nat)
    requires k <= |ids|
  {
    forall j :: 0 <= j < k ==> IsMember(s, ids[j], kind) && s[ids[j]].name != name
  }

  /** Position `k` is where the search ends: at the name, at an id that names nothing of the kind, or behind the list. */
  ghost predicate EndsAt(s: State, ids: seq<Id>, name: string, kind: MemberKind, k: nat, r: ByName) {
    && k <= |ids| && OthersBefore(s, ids, name, kind, k)
    && match r
       case Named(x) => k < |ids| && x == ids[k] && IsMember(s, x, kind) && s[x].name == name
       case Broken => k < |ids| && !IsMember(s, ids[k], kind)
       case NotNamed => k == |ids|
  }

  /**
  Whatever the list names: the search ends at the first id that has the name or names nothing of the kind, and tells
  which; it finds nothing exactly when it gets through the whole list.
  */
  lemma {:induction false} FindByNameFirst(s: State, ids: seq<Id>, name: string, kind: MemberKind) returns (k: nat)
    ensures EndsAt(s, ids, name, kind, k, FindByName(s, ids, name, kind))
  {
    k := 0;
    if ids != [] && IsMember(s, ids[0], kind) && s[ids[0]].name != name {
      var rest := FindByNameFirst(s, ids[1..], name, kind);
      k := rest + 1;
      forall j | 0 <= j < k ensures IsMember(s, ids[j], kind) && s[ids[j]].name != name {
        assert j > 0 ==> ids[j] == ids[1..][j - 1];
      }
    }
  }

  /** The search by name says whether the name is taken, also after a new object is stored that the list does not name. */
  lemma SearchAfterStore(s: State, x: Id, rec: Record, ids: seq<Id>, name: string, kind: MemberKind)
    requires MembersLive(s, ids, kind) && x !in s
    ensures FindByName(s, ids, name, kind) == NotNamed <==> !Taken(s, ids, kind, name)
    ensures FindByName(s[x := rec], ids, name, kind) == NotNamed <==> !Taken(s, ids, kind, name)
  {
    var t := s[x := rec];
    assert forall y :: y in ids ==> IsMember(t, y, kind) && t[y] == s[y];
    FindByNameMeans(s, ids, name, kind);
    FindByNameMeans(t, ids, name, kind);
    if Taken(t, ids, kind, name) {
      var y :| y in ids && IsMember(t, y, kind) && t[y].name == name;
      assert IsMember(s, y, kind) && s[y].name == name;
    }
  }

  /** A name that was not found is not found after a new object is stored. */
  lemma {:induction false} SearchAgain(s: State, x: Id, rec: Record, ids: seq<Id>, name: string, kind: MemberKind)
    requires x !in s && FindByName(s, ids, name, kind) == NotNamed
    ensures FindByName(s[x := rec], ids, name, kind) == NotNamed
  {
    if ids != [] { SearchAgain(s, x, rec, ids[1..], name, kind); }
  }

  // ----- The search for a unique name -----

  const MAX_ATTEMPTS: nat := 1000

  /** The i-th candidate: prefix, underscore, decimal number. */
  function Candidate(prefix: string, i: nat): string {
    prefix + "_" + Decimal.Text(i)
  }

  lemma CandidateInjective(prefix: string, i: nat, j: nat)
    requires Candidate(prefix, i) == Candidate(prefix, j)
    ensures i == j
  {
    var p := prefix + "_";
    assert Candidate(prefix, i)[|p|..] == Decimal.Text(i);
    assert Candidate(prefix, j)[|p|..] == Decimal.Text(j);
    Decimal.TextInjective(i, j);
  }

  /** The name is the prefix, an underscore, and the numeral of `k`. */
  predicate Numbered(name: string, prefix: string, k: nat) {
    && |prefix| < |name| && name[..|prefix|] == prefix && name[|prefix|] == '_'
    && Decimal.Numeral(name[|prefix| + 1..], k)
  }

  lemma CandidateIff(prefix: string, i: nat, name: string)
    ensures Numbered(name, prefix, i) <==> name == Candidate(prefix, i)
  {
    CandidateParts(prefix, Decimal.Digits(i));
    Decimal.NumeralIff(Decimal.Digits(i), i);
    if Numbered(name, prefix, i) {
      Decimal.NumeralIff(name[|prefix| + 1..], i);
      PartsOf(name, |prefix|);
    }
  }

  lemma CandidateParts(prefix: string, digits: string)
    ensures var c := prefix + "_" + digits; c[..|prefix|] == prefix && c[|prefix|] == '_' && c[|prefix| + 1..] == digits
  {
  }

  lemma PartsOf(name: string, n: nat)
    requires n < |name|
    ensures name == name[..n] + [name[n]] + name[n + 1..]
  {
  }

  /** The loop of createUniqueRepoName and createUniqueDockerImageName, from attempt `i`. */
  function UniqueNameFrom(s: State, ids: seq<Id>, kind: MemberKind, prefix: string, i: nat): Result<string>
    decreases MAX_ATTEMPTS + 1 - i
  {
    if i > MAX_ATTEMPTS then Err
    else
      match FindByName(s, ids, Candidate(prefix, i), kind)
      case Broken => Err
      case NotNamed => Ok(Candidate(prefix, i))
      case Named(_) => UniqueNameFrom(s, ids, kind, prefix, i + 1)
  }

  /** createUniqueRepoName and createUniqueDockerImageName; `conforms` is the verdict of the name rules on the prefix. */
  function CreateUniqueName(s: State, ids: seq<Id>, kind: MemberKind, prefix: string, conforms: bool): Result<string> {
    if !conforms then Err else UniqueNameFrom(s, ids, kind, prefix, 1)
  }

  /** `i` is the first attempt whose name is free. */
  ghost predicate FirstFree(s: State, ids: seq<Id>, kind: MemberKind, prefix: string, i: nat) {
    && 1 <= i <= MAX_ATTEMPTS && !Taken(s, ids, kind, Candidate(prefix, i))
    && forall j :: 1 <= j < i ==> Taken(s, ids, kind, Candidate(prefix, j))
  }

  lemma {:induction false} UniqueNameFromMeans(s: State, ids: seq<Id>, kind: MemberKind, prefix: string, i: nat)
    requires MembersLive(s, ids, kind) && 1 <= i <= MAX_ATTEMPTS + 1
    requires forall j :: 1 <= j < i ==> Taken(s, ids, kind, Candidate(prefix, j))
    ensures match UniqueNameFrom(s, ids, kind, prefix, i)
            case Ok(name) => exists k :: FirstFree(s, ids, kind, prefix, k) && name == Candidate(prefix, k)
            case Err => forall j :: 1 <= j <= MAX_ATTEMPTS ==> Taken(s, ids, kind, Candidate(prefix, j))
    decreases MAX_ATTEMPTS + 1 - i
  {
    if i <= MAX_ATTEMPTS {
      FindByNameMeans(s, ids, Candidate(prefix, i), kind);
      match FindByName(s, ids, Candidate(prefix, i), kind)
      case NotNamed => assert FirstFree(s, ids, kind, prefix, i);
      case Named(x) =>
        assert Taken(s, ids, kind, Candidate(prefix, i));
        UniqueNameFromMeans(s, ids, kind, prefix, i + 1);
    }
  }

  /** With fewer members than candidates, some candidate is free. */
  lemma SomeCandidateFree(s: State, ids: seq<Id>, kind: MemberKind, prefix: string)
    requires |ids| < MAX_ATTEMPTS
    ensures exists j :: 1 <= j <= MAX_ATTEMPTS && !Taken(s, ids, kind, Candidate(prefix, j))
  {
    if forall j :: 1 <= j <= MAX_ATTEMPTS ==> Taken(s, ids, kind, Candidate(prefix, j)) {
      FirstOwners(s, ids, kind, prefix, MAX_ATTEMPTS);
      assert false;
    }
  }

  /** Different candidates belong to different members: n taken candidates need n members. */
  lemma {:induction false} FirstOwners(s: State, ids: seq<Id>, kind: MemberKind, prefix: string, n: nat)
    requires forall j :: 1 <= j <= n ==> Taken(s, ids, kind, Candidate(prefix, j))
    ensures |ids| >= n
  {
    var owners := OwnersOf(s, ids, kind, prefix, n);
    var members := set x | x in ids;
    assert forall x :: x in owners ==> x in members;
    MembersBound(ids);
    CardinalityMonotone(owners, members);
  }

  lemma {:induction false} OwnersOf(s: State, ids: seq<Id>, kind: MemberKind, prefix: string, n: nat) returns (owners: set<Id>)
    requires forall j :: 1 <= j <= n ==> Taken(s, ids, kind, Candidate(prefix, j))
    ensures |owners| == n
    ensures forall x :: x in owners ==>
      x in ids && IsMember(s, x, kind) && exists j :: 1 <= j <= n && s[x].name == Candidate(prefix, j)
  {
    if n == 0 {
      owners := {};
    } else {
      var rest := OwnersOf(s, ids, kind, prefix, n - 1);
      assert Taken(s, ids, kind, Candidate(prefix, n));
      var x :| x in ids && IsMember(s, x, kind) && s[x].name == Candidate(prefix, n);
      if x in rest {
        var j :| 1 <= j <= n - 1 && s[x].name == Candidate(prefix, j);
        CandidateInjective(prefix, n, j);
        assert false;
      }
      owners := rest + {x};
    }
  }

  lemma {:induction false} MembersBound(ids: seq<Id>)
    ensures |set x | x in ids| <= |ids|
  {
    if ids != [] {
      MembersBound(ids[1..]);
      assert (set x | x in ids) == {ids[0]} + set x | x in ids[1..];
    }
  }

  lemma {:induction false} CardinalityMonotone<T>(a: set<T>, b: set<T>)
    requires a <= b
    ensures |a| <= |b|
  {
    if a != {} {
      var x :| x in a;
      CardinalityMonotone(a - {x}, b - {x});
    }
  }

  /** The name is free, numbered from 1 to 1000, and every name of the prefix with a smaller number is taken. */
  ghost predicate LeastFree(s: State, ids: seq<Id>, kind: MemberKind, prefix: string, name: string) {
    && !Taken(s, ids, kind, name)
    && exists k :: 1 <= k <= 1000 && Numbered(name, prefix, k) && TakenBelow(s, ids, kind, prefix, k)
  }

  ghost predicate TakenBelow(s: State, ids: seq<Id>, kind: MemberKind, prefix: string, k: nat) {
    forall j, name :: 1 <= j < k && Numbered(name, prefix, j) ==> Taken(s, ids, kind, name)
  }

  /** Some name of the prefix with a number from 1 to 1000 is free. */
  ghost predicate SomeFree(s: State, ids: seq<Id>, kind: MemberKind, prefix: string) {
    exists k, name :: 1 <= k <= 1000 && Numbered(name, prefix, k) && !Taken(s, ids, kind, name)
  }

  lemma FirstIsLeast(s: State, ids: seq<Id>, kind: MemberKind, prefix: string, k: nat)
    requires FirstFree(s, ids, kind, prefix, k)
    ensures LeastFree(s, ids, kind, prefix, Candidate(prefix, k))
  {
    CandidateIff(prefix, k, Candidate(prefix, k));
    forall j, other | 1 <= j < k && Numbered(other, prefix, j) ensures Taken(s, ids, kind, other) {
      CandidateIff(prefix, j, other);
    }
  }

  lemma SomeFreeIff(s: State, ids: seq<Id>, kind: MemberKind, prefix: string)
    ensures SomeFree(s, ids, kind, prefix) <==>
      exists j :: 1 <= j <= MAX_ATTEMPTS && !Taken(s, ids, kind, Candidate(prefix, j))
  {
    if SomeFree(s, ids, kind, prefix) {
      var k, name :| 1 <= k <= 1000 && Numbered(name, prefix, k) && !Taken(s, ids, kind, name);
      CandidateIff(prefix, k, name);
    }
    if exists j :: 1 <= j <= MAX_ATTEMPTS && !Taken(s, ids, kind, Candidate(prefix, j)) {
      var j :| 1 <= j <= MAX_ATTEMPTS && !Taken(s, ids, kind, Candidate(prefix, j));
      CandidateIff(prefix, j, Candidate(prefix, j));
    }
  }

  /**
  The unique-name search returns the free name of the prefix with the least number. It fails exactly when the prefix
  does not conform or all names with numbers up to 1000 are taken, and so never with fewer than 1000 members.
  */
  lemma CreateUniqueNameMeans(s: State, ids: seq<Id>, kind: MemberKind, prefix: string, conforms: bool)
    requires MembersLive(s, ids, kind)
    ensures var r := CreateUniqueName(s, ids, kind, prefix, conforms);
      && (r.Ok? ==> LeastFree(s, ids, kind, prefix, r.value))
      && (r.Ok? <==> conforms && SomeFree(s, ids, kind, prefix))
      && (conforms && |ids| < 1000 ==> r.Ok?)
  {
    UniqueNameFromMeans(s, ids, kind, prefix, 1);
    SomeFreeIff(s, ids, kind, prefix);
    if |ids| < MAX_ATTEMPTS { SomeCandidateFree(s, ids, kind, prefix); }
    var r := CreateUniqueName(s, ids, kind, prefix, conforms);
    if r.Ok? {
      var k :| FirstFree(s, ids, kind, prefix, k) && r.value == Candidate(prefix, k);
      FirstIsLeast(s, ids, kind, prefix, k);
    }
  }
}
