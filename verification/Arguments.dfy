/** Flattening of argument lists with packArgs, and reading a flat list of bulks back as a map with HashValue. */
module Arguments {
  import opened Basics
  import opened Decimal
  import opened Replies
  import opened Commands

  /**
  What a caller passes for a command. The pairs of a map are in the order in which the program walks the map, which
  may be any; a nil slice or map is None.
  */
  datatype Item =
    | ScalarItem(arg: Arg)
    | SliceItem(elements: Option<seq<Arg>>)
    | MapItem(pairs: Option<seq<(Arg, Arg)>>)

  function FlattenPairs(pairs: seq<(Arg, Arg)>): seq<Arg> {
    if pairs == [] then [] else [pairs[0].0, pairs[0].1] + FlattenPairs(pairs[1..])
  }

  function FlattenItem(item: Item): seq<Arg> {
    match item
    case ScalarItem(a) => [a]
    case SliceItem(None) => []
    case SliceItem(Some(elements)) => elements
    case MapItem(None) => []
    case MapItem(Some(pairs)) => FlattenPairs(pairs)
  }

  /** packArgs */
  function PackArgs(items: seq<Item>): seq<Arg> {
    if items == [] then [] else FlattenItem(items[0]) + PackArgs(items[1..])
  }

  lemma {:induction false} FlattenPairsAppend(a: seq<(Arg, Arg)>, p: (Arg, Arg))
    ensures FlattenPairs(a + [p]) == FlattenPairs(a) + [p.0, p.1]
  {
    if a != [] {
      assert (a + [p])[0] == a[0] && (a + [p])[1..] == a[1..] + [p];
      FlattenPairsAppend(a[1..], p);
    } else {
      assert a + [p] == [p] && [p][1..] == [];
    }
  }

  lemma {:induction false} PackArgsAppend(a: seq<Item>, item: Item)
    ensures PackArgs(a + [item]) == PackArgs(a) + FlattenItem(item)
  {
    if a != [] {
      assert (a + [item])[0] == a[0] && (a + [item])[1..] == a[1..] + [item];
      PackArgsAppend(a[1..], item);
    } else {
      assert a + [item] == [item] && [item][1..] == [];
    }
  }

  /** packArgs with its loops. */
  method FlattenArgs(items: seq<Item>) returns (args: seq<Arg>)
    ensures args == PackArgs(items)
  {
    args := [];
    var k := 0;
    while k < |items|
      invariant 0 <= k <= |items|
      invariant args == PackArgs(items[..k])
    {
      assert items[..k + 1] == items[..k] + [items[k]];
      PackArgsAppend(items[..k], items[k]);
      match items[k] {
        case ScalarItem(a) => args := args + [a];
        case SliceItem(None) =>
        case MapItem(None) =>
        case SliceItem(Some(elements)) => args := AppendElements(args, elements);
        case MapItem(Some(pairs)) => args := AppendPairs(args, pairs);
      }
      k := k + 1;
    }
    assert items[..k] == items;
  }

  method AppendElements(args: seq<Arg>, elements: seq<Arg>) returns (r: seq<Arg>)
    ensures r == args + elements
  {
    r := args;
    for i := 0 to |elements|
      invariant r == args + elements[..i]
    {
      r := r + [elements[i]];
    }
  }

  method AppendPairs(args: seq<Arg>, pairs: seq<(Arg, Arg)>) returns (r: seq<Arg>)
    ensures r == args + FlattenPairs(pairs)
  {
    r := args;
    for i := 0 to |pairs|
      invariant r == args + FlattenPairs(pairs[..i])
    {
      assert pairs[..i + 1] == pairs[..i] + [pairs[i]];
      FlattenPairsAppend(pairs[..i], pairs[i]);
      r := r + [pairs[i].0, pairs[i].1];
    }
    assert pairs[..|pairs|] == pairs;
  }

  // ----- HashValue -----

  /** StringValue: a null bulk counts as the empty string. */
  function StringValue(r: Reply): Result<bytes> {
    match r
    case NullBulk => Ok([])
    case BulkReply(b) => Ok(b)
    case _ => Err
  }

  /** The loop of HashValue from pair `i`; a last element without a partner is not looked at. */
  function HashFrom(rs: seq<Reply>, i: nat, result: map<bytes, bytes>): Result<map<bytes, bytes>>
    requires i <= |rs| / 2
    decreases |rs| / 2 - i
  {
    if i == |rs| / 2 then Ok(result)
    else
      var key := StringValue(rs[i * 2]);
      var value := StringValue(rs[i * 2 + 1]);
      if key.Err? || value.Err? then Err else HashFrom(rs, i + 1, result[key.value := value.value])
  }

  function HashValue(r: Reply): Result<map<bytes, bytes>> {
    match r
    case NullMulti => Ok(map[])
    case MultiReply(rs) => HashFrom(rs, 0, map[])
    case _ => Err
  }

  method ReadHash(r: Reply) returns (h: Result<map<bytes, bytes>>)
    ensures h == HashValue(r)
  {
    match r {
      case NullMulti => h := Ok(map[]);
      case MultiReply(rs) =>
        var result: map<bytes, bytes> := map[];
        var i := 0;
        while i < |rs| / 2
          invariant 0 <= i <= |rs| / 2
          invariant HashFrom(rs, 0, map[]) == HashFrom(rs, i, result)
        {
          var key := StringValue(rs[i * 2]);
          if key.Err? { return Err; }
          var value := StringValue(rs[i * 2 + 1]);
          if value.Err? { return Err; }
          result := result[key.value := value.value];
          i := i + 1;
        }
        h := Ok(result);
      case _ => h := Err;
    }
  }

  /** The text of a reply that has one: a bulk, or the empty string for a null bulk. */
  predicate HasText(r: Reply, t: bytes) { (r.BulkReply? && r.bulk == t) || (r.NullBulk? && t == []) }

  /** The i-th pair of the list is the last one with this key, and has this value. */
  ghost predicate LastPair(rs: seq<Reply>, n: nat, key: bytes, value: bytes)
    requires 2 * n <= |rs|
  {
    exists i :: 0 <= i < n && HasText(rs[i * 2], key) && HasText(rs[i * 2 + 1], value)
      && forall j :: i < j < n ==> !HasText(rs[j * 2], key)
  }

  predicate HasSomeText(r: Reply) { r.BulkReply? || r.NullBulk? }

  lemma OnePairMore(rs: seq<Reply>, i: nat, key: bytes, value: bytes)
    requires 2 * i + 2 <= |rs| && HasSomeText(rs[i * 2]) && HasSomeText(rs[i * 2 + 1])
    ensures LastPair(rs, i + 1, key, value) <==>
      if HasText(rs[i * 2], key) then HasText(rs[i * 2 + 1], value) else LastPair(rs, i, key, value)
  {
    if LastPair(rs, i, key, value) && !HasText(rs[i * 2], key) {
      var j :| 0 <= j < i && HasText(rs[j * 2], key) && HasText(rs[j * 2 + 1], value)
        && forall m :: j < m < i ==> !HasText(rs[m * 2], key);
      assert forall m :: j < m < i + 1 ==> !HasText(rs[m * 2], key);
    }
  }

  /** The map holds the last pair of each key among the first `i`. */
  ghost predicate HoldsLast(rs: seq<Reply>, i: nat, done: map<bytes, bytes>)
    requires 2 * i <= |rs|
  {
    forall key, value :: (key in done && done[key] == value) <==> LastPair(rs, i, key, value)
  }

  lemma HoldsOneMore(rs: seq<Reply>, i: nat, done: map<bytes, bytes>)
    requires 2 * i + 2 <= |rs| && HasSomeText(rs[i * 2]) && HasSomeText(rs[i * 2 + 1]) && HoldsLast(rs, i, done)
    ensures HoldsLast(rs, i + 1, done[StringValue(rs[i * 2]).value := StringValue(rs[i * 2 + 1]).value])
  {
    var t := done[StringValue(rs[i * 2]).value := StringValue(rs[i * 2 + 1]).value];
    var n := i + 1;
    forall key, value ensures (key in t && t[key] == value) <==> LastPair(rs, n, key, value) {
      OnePairMore(rs, i, key, value);
    }
  }

  lemma {:induction false} HashFromMeans(rs: seq<Reply>, i: nat, done: map<bytes, bytes>)
    requires i <= |rs| / 2 && HoldsLast(rs, i, done)
    ensures HashFrom(rs, i, done).Ok? <==> forall j :: i * 2 <= j < |rs| / 2 * 2 ==> HasSomeText(rs[j])
    ensures HashFrom(rs, i, done).Ok? ==> HoldsLast(rs, |rs| / 2, HashFrom(rs, i, done).value)
    decreases |rs| / 2 - i
  {
    if i < |rs| / 2 && HasSomeText(rs[i * 2]) && HasSomeText(rs[i * 2 + 1]) {
      HoldsOneMore(rs, i, done);
      HashFromMeans(rs, i + 1, done[StringValue(rs[i * 2]).value := StringValue(rs[i * 2 + 1]).value]);
    }
  }

  /**
  HashValue reads the elements in pairs and leaves an odd one out. It succeeds exactly when every element of a pair is a
  bulk or a null bulk, which counts as the empty string, and then gives each key the value of its last pair. The null
  array is the empty map, and a reply that is no array an error.
  */
  lemma HashValueMeans(r: Reply)
    ensures match r
            case NullMulti => HashValue(r) == Ok(map[])
            case MultiReply(rs) =>
              && (HashValue(r).Ok? <==> forall j :: 0 <= j < |rs| / 2 * 2 ==> rs[j].BulkReply? || rs[j].NullBulk?)
              && (HashValue(r).Ok? ==> forall key, value ::
                    (key in HashValue(r).value && HashValue(r).value[key] == value) <==> LastPair(rs, |rs| / 2, key, value))
            case _ => HashValue(r) == Err
  {
    if r.MultiReply? { HashFromMeans(r.multi, 0, map[]); }
  }

  // ----- Flattening a map and reading it back -----

  /** The pairs of a map of strings, in the order of `keys`. */
  function PairsOf(m: map<bytes, bytes>, keys: seq<bytes>): (pairs: seq<(Arg, Arg)>)
    requires forall k :: k in keys ==> k in m
    ensures |pairs| == |keys|
    ensures forall i :: 0 <= i < |keys| ==> pairs[i] == (StringArg(keys[i]), StringArg(m[keys[i]]))
  {
    seq(|keys|, i requires 0 <= i < |keys| => (StringArg(keys[i]), StringArg(m[keys[i]])))
  }

  /** `keys` walks the map: every key once, in any order. */
  ghost predicate Walks(keys: seq<bytes>, m: map<bytes, bytes>) {
    NoDup(keys) && forall k :: k in keys <==> k in m
  }

  lemma {:induction false} FlattenedAt(pairs: seq<(Arg, Arg)>)
    ensures |FlattenPairs(pairs)| == 2 * |pairs|
    ensures forall i :: 0 <= i < |pairs| ==>
      FlattenPairs(pairs)[i * 2] == pairs[i].0 && FlattenPairs(pairs)[i * 2 + 1] == pairs[i].1
  {
    if pairs != [] {
      FlattenedAt(pairs[1..]);
      forall i | 0 <= i < |pairs|
        ensures FlattenPairs(pairs)[i * 2] == pairs[i].0 && FlattenPairs(pairs)[i * 2 + 1] == pairs[i].1
      {
        if i > 0 {
          assert FlattenPairs(pairs)[i * 2] == FlattenPairs(pairs[1..])[(i - 1) * 2];
          assert FlattenPairs(pairs)[i * 2 + 1] == FlattenPairs(pairs[1..])[(i - 1) * 2 + 1];
        }
      }
    }
  }

  /** The bulks of a flattened map, as HashValue finds them. */
  lemma BulksOfMap(m: map<bytes, bytes>, keys: seq<bytes>)
    requires forall k :: k in keys ==> k in m
    ensures var rs := Bulks(FlattenPairs(PairsOf(m, keys)));
      && |rs| == 2 * |keys|
      && forall i :: 0 <= i < |keys| ==> rs[i * 2] == BulkReply(keys[i]) && rs[i * 2 + 1] == BulkReply(m[keys[i]])
  {
    FlattenedAt(PairsOf(m, keys));
  }

  lemma HashStep(rs: seq<Reply>, i: nat, done: map<bytes, bytes>, key: bytes, value: bytes)
    requires i < |rs| / 2 && rs[i * 2] == BulkReply(key) && rs[i * 2 + 1] == BulkReply(value)
    ensures HashFrom(rs, i, done) == HashFrom(rs, i + 1, done[key := value])
  {
  }

  /** The first `i` pairs have been read. */
  ghost predicate ReadSoFar(m: map<bytes, bytes>, keys: seq<bytes>, i: nat, done: map<bytes, bytes>)
    requires i <= |keys| && forall k :: k in keys ==> k in m
  {
    (forall k :: k in done <==> k in keys[..i]) && forall k :: k in done ==> k in m && done[k] == m[k]
  }

  lemma ReadOneMore(m: map<bytes, bytes>, keys: seq<bytes>, i: nat, done: map<bytes, bytes>)
    requires i < |keys| && (forall k :: k in keys ==> k in m) && ReadSoFar(m, keys, i, done)
    ensures ReadSoFar(m, keys, i + 1, done[keys[i] := m[keys[i]]])
  {
    assert keys[..i + 1] == keys[..i] + [keys[i]];
  }

  lemma ReadAll(m: map<bytes, bytes>, keys: seq<bytes>, done: map<bytes, bytes>)
    requires Walks(keys, m) && ReadSoFar(m, keys, |keys|, done)
    ensures done == m
  {
    assert keys[..|keys|] == keys;
  }

  lemma {:induction false} HashFromMap(m: map<bytes, bytes>, keys: seq<bytes>, rs: seq<Reply>, i: nat, done: map<bytes, bytes>)
    requires Walks(keys, m) && i <= |keys| && |rs| == 2 * |keys|
    requires forall j :: 0 <= j < |keys| ==> rs[j * 2] == BulkReply(keys[j]) && rs[j * 2 + 1] == BulkReply(m[keys[j]])
    requires ReadSoFar(m, keys, i, done)
    ensures HashFrom(rs, i, done) == Ok(m)
    decreases |keys| - i
  {
    if i < |keys| {
      HashStep(rs, i, done, keys[i], m[keys[i]]);
      ReadOneMore(m, keys, i, done);
      HashFromMap(m, keys, rs, i + 1, done[keys[i] := m[keys[i]]]);
    } else {
      ReadAll(m, keys, done);
    }
  }

  lemma OneItem(item: Item)
    ensures PackArgs([item]) == FlattenItem(item)
  {
    assert [item][1..] == [];
    assert FlattenItem(item) + [] == FlattenItem(item);
  }

  /** Whatever the order in which the map is walked, flattening it and reading the bulks back gives the map. */
  lemma HashRoundTrip(m: map<bytes, bytes>, keys: seq<bytes>)
    requires Walks(keys, m)
    ensures HashValue(MultiReply(Bulks(PackArgs([MapItem(Some(PairsOf(m, keys)))])))) == Ok(m)
  {
    OneItem(MapItem(Some(PairsOf(m, keys))));
    BulksOfMap(m, keys);
    HashFromMap(m, keys, Bulks(FlattenPairs(PairsOf(m, keys))), 0, map[]);
  }

  /** The same over the wire: the flattened map, sent as a command and received as a reply, is the map. */
  lemma HashOverTheWire(m: map<bytes, bytes>, keys: seq<bytes>, rest: bytes)
    requires Walks(keys, m) && 2 * |keys| <= INT64_MAX
    requires forall k :: k in m ==> |k| + 2 <= INT64_MAX && |m[k]| + 2 <= INT64_MAX
    ensures var args := PackArgs([MapItem(Some(PairsOf(m, keys)))]);
      && PackCommand(args, TURNS).Some?
      && var received := Recv(PackCommand(args, TURNS).value + rest);
        received.Some? && received.value.1 == rest && HashValue(received.value.0) == Ok(m)
  {
    OneItem(MapItem(Some(PairsOf(m, keys))));
    MapArgsSmall(m, keys);
    BulksReadBackIff(FlattenPairs(PairsOf(m, keys)), TURNS, rest);
    HashRoundTrip(m, keys);
  }

  /** Keys and values are strings, so packCommand announces their lengths right. */
  lemma MapArgsSmall(m: map<bytes, bytes>, keys: seq<bytes>)
    requires Walks(keys, m) && 2 * |keys| <= INT64_MAX
    requires forall k :: k in m ==> |k| + 2 <= INT64_MAX && |m[k]| + 2 <= INT64_MAX
    ensures AllTyped(FlattenPairs(PairsOf(m, keys))) && AllSmall(FlattenPairs(PairsOf(m, keys)))
  {
    var pairs := PairsOf(m, keys);
    FlattenedAt(pairs);
    forall i | 0 <= i < |pairs| ensures Fits(pairs[i].0) && Fits(pairs[i].1) { assert keys[i] in m; }
    PairsFit(pairs);
    forall k | 0 <= k < |FlattenPairs(pairs)| ensures Typed(FlattenPairs(pairs)[k]) && Small(FlattenPairs(pairs)[k]) {
      assert Fits(FlattenPairs(pairs)[k]);
    }
  }

  predicate Fits(a: Arg) { Typed(a) && Small(a) }

  lemma {:induction false} PairsFit(pairs: seq<(Arg, Arg)>)
    requires forall i :: 0 <= i < |pairs| ==> Fits(pairs[i].0) && Fits(pairs[i].1)
    ensures forall k :: 0 <= k < |FlattenPairs(pairs)| ==> Fits(FlattenPairs(pairs)[k])
  {
    if pairs != [] { PairsFit(pairs[1..]); }
  }

  // ----- Where the arguments of an item stand -----

  /** How many arguments an item makes. */
  function Size(item: Item): nat {
    match item
    case ScalarItem(_) => 1
    case SliceItem(None) => 0
    case MapItem(None) => 0
    case SliceItem(Some(elements)) => |elements|
    case MapItem(Some(pairs)) => 2 * |pairs|
  }

  /** How many arguments the items before the k-th make. */
  function Offset(items: seq<Item>, k: nat): nat
    requires k <= |items|
  {
    if k == 0 then 0 else Size(items[k - 1]) + Offset(items, k - 1)
  }

  /** The arguments from a place on are those of the item: a scalar itself, a slice in order, a map pair by pair. */
  predicate StandsAt(args: seq<Arg>, start: nat, item: Item) {
    && start + Size(item) <= |args|
    && match item
       case ScalarItem(a) => args[start] == a
       case SliceItem(Some(elements)) => forall j :: 0 <= j < |elements| ==> args[start + j] == elements[j]
       case MapItem(Some(pairs)) =>
         forall j :: 0 <= j < |pairs| ==> args[start + 2 * j] == pairs[j].0 && args[start + 2 * j + 1] == pairs[j].1
       case _ => true
  }

  lemma FlattenedStands(item: Item, before: seq<Arg>, after: seq<Arg>)
    ensures |FlattenItem(item)| == Size(item) && StandsAt(before + FlattenItem(item) + after, |before|, item)
  {
    if item.MapItem? && item.pairs.Some? {
      var pairs := item.pairs.value;
      FlattenedAt(pairs);
      forall j | 0 <= j < |pairs|
        ensures var args := before + FlattenPairs(pairs) + after;
          args[|before| + 2 * j] == pairs[j].0 && args[|before| + 2 * j + 1] == pairs[j].1
      {
        assert FlattenPairs(pairs)[j * 2] == pairs[j].0 && FlattenPairs(pairs)[j * 2 + 1] == pairs[j].1;
      }
    }
  }

  lemma {:induction false} OffsetIsLength(items: seq<Item>, k: nat)
    requires k <= |items|
    ensures |PackArgs(items[..k])| == Offset(items, k)
  {
    if k > 0 {
      OffsetIsLength(items, k - 1);
      assert items[..k] == items[..k - 1] + [items[k - 1]];
      PackArgsAppend(items[..k - 1], items[k - 1]);
      FlattenedStands(items[k - 1], [], []);
    } else {
      assert items[..0] == [];
    }
  }

  /** packArgs puts the arguments of each item behind those of the items before it, and adds nothing else. */
  lemma PackArgsAt(items: seq<Item>, k: nat)
    requires k < |items|
    ensures |PackArgs(items)| == Offset(items, |items|) && StandsAt(PackArgs(items), Offset(items, k), items[k])
  {
    OffsetIsLength(items, |items|);
    OffsetIsLength(items, k);
    assert items[..|items|] == items;
    Splits(items, k);
    ItemBetween(items[..k], items[k], items[k + 1..]);
    FlattenedStands(items[k], PackArgs(items[..k]), PackArgs(items[k + 1..]));
  }

  lemma Splits(items: seq<Item>, k: nat)
    requires k < |items|
    ensures items[..k] + [items[k]] + items[k + 1..] == items
  {
  }

  lemma ItemBetween(before: seq<Item>, item: Item, after: seq<Item>)
    ensures PackArgs(before + [item] + after) == PackArgs(before) + FlattenItem(item) + PackArgs(after)
  {
    PackArgsConcat(before + [item], after);
    PackArgsAppend(before, item);
  }

  /** The reply is a bulk that says the argument. */
  predicate Saying(r: Reply, a: Arg) { r.BulkReply? && Carries(r.bulk, a) }

  /** The replies from a place on say the arguments of the item, in order. */
  predicate SaysAt(rs: seq<Reply>, start: nat, item: Item) {
    && start + Size(item) <= |rs|
    && match item
       case ScalarItem(a) => Saying(rs[start], a)
       case SliceItem(Some(elements)) => forall j :: 0 <= j < |elements| ==> Saying(rs[start + j], elements[j])
       case MapItem(Some(pairs)) =>
         forall j :: 0 <= j < |pairs| ==> Saying(rs[start + 2 * j], pairs[j].0) && Saying(rs[start + 2 * j + 1], pairs[j].1)
       case _ => true
  }

  lemma SaidWhereItStands(rs: seq<Reply>, args: seq<Arg>, start: nat, item: Item)
    requires Says(rs, args) && StandsAt(args, start, item)
    ensures SaysAt(rs, start, item)
  {
    assert forall k :: 0 <= k < |args| ==> Saying(rs[k], args[k]);
  }

  /** Over the wire: the server reads one bulk for each argument of each item, in their order, and the bulk says it. */
  lemma ItemsOverTheWire(items: seq<Item>, k: nat, rest: bytes)
    requires k < |items| && AllTyped(PackArgs(items)) && AllSmall(PackArgs(items))
    ensures PackCommand(PackArgs(items), TURNS).Some?
    ensures var o := Recv(PackCommand(PackArgs(items), TURNS).value + rest);
      && o.Some? && o.value.1 == rest && o.value.0.MultiReply? && |o.value.0.multi| == Offset(items, |items|)
      && SaysAt(o.value.0.multi, Offset(items, k), items[k])
  {
    PackArgsAt(items, k);
    PackCommandIff(PackArgs(items), TURNS, rest);
    var rs := Recv(PackCommand(PackArgs(items), TURNS).value + rest).value.0.multi;
    SaidWhereItStands(rs, PackArgs(items), Offset(items, k), items[k]);
  }

  // ----- A byte slice as an argument -----

  /** A []byte that is passed to packArgs is a slice like any other: its elements are of a type packCommand rejects. */
  function ByteSlice(b: bytes): Item { SliceItem(Some(seq(|b|, _ => OtherArg))) }

  lemma {:induction false} PackArgsConcat(a: seq<Item>, b: seq<Item>)
    ensures PackArgs(a + b) == PackArgs(a) + PackArgs(b)
  {
    if a != [] {
      assert (a + b)[0] == a[0] && (a + b)[1..] == a[1..] + b;
      PackArgsConcat(a[1..], b);
    } else {
      assert a + b == b;
    }
  }

  lemma EmptySliceIsLost(before: seq<Item>, after: seq<Item>)
    ensures PackArgs(before + [ByteSlice([])] + after) == PackArgs(before + after)
  {
    ItemBetween(before, ByteSlice([]), after);
    PackArgsConcat(before, after);
    assert FlattenItem(ByteSlice([])) == [];
    assert PackArgs(before) + [] == PackArgs(before);
  }

  lemma SliceIsRejected(before: seq<Item>, b: bytes, after: seq<Item>)
    requires b != []
    ensures PackAll(PackArgs(before + [ByteSlice(b)] + after), TURNS).None?
  {
    ItemBetween(before, ByteSlice(b), after);
    var args, i := PackArgs(before + [ByteSlice(b)] + after), |PackArgs(before)|;
    assert args[i] == FlattenItem(ByteSlice(b))[0] == OtherArg;
    PackAllRejects(args, i);
  }

  /** So a command with a byte slice among its items fails, unless the slice is empty, and then it is lost. */
  lemma ByteSliceRejectedIff(before: seq<Item>, b: bytes, after: seq<Item>)
    requires AllTyped(PackArgs(before + after)) && AllSmall(PackArgs(before + after))
    ensures var items := before + [ByteSlice(b)] + after;
      && (PackCommand(PackArgs(items), TURNS).Some? <==> b == [])
      && (b == [] ==> PackArgs(items) == PackArgs(before + after))
  {
    if b == [] {
      EmptySliceIsLost(before, after);
      PackAllEncodes(PackArgs(before + after), TURNS);
    } else {
      SliceIsRejected(before, b, after);
    }
  }
}
