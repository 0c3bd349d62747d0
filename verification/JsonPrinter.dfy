/**
The printers of stored objects: methods that append to the text printed so far, proved to print the fields they are
given in the format that the reader reads.
*/
module JsonPrinter {
  import opened Decimal
  import opened JsonReader
  import opened JsonRoundTrip

  lemma {:induction false} PrintMoreFieldsAppend(tt: TimeText, fs: seq<Field>, f: Field)
    requires AllFlat(fs) && Flat(f)
    ensures AllFlat(fs + [f]) && PrintMoreFields(tt, fs + [f]) == PrintMoreFields(tt, fs) + ", " + PrintField(tt, f)
  {
    if fs != [] {
      assert (fs + [f])[0] == fs[0] && (fs + [f])[1..] == fs[1..] + [f];
      PrintMoreFieldsAppend(tt, fs[1..], f);
      Regrouped(", " + PrintField(tt, fs[0]), PrintMoreFields(tt, fs[1..]), ", ", PrintField(tt, f));
    } else {
      assert fs + [f] == [f] && [f][1..] == [];
    }
  }

  lemma Regrouped(a: string, b: string, c: string, d: string)
    ensures a + (b + c + d) == a + b + c + d
  {
  }

  /** Printing one field more. */
  lemma PrintFieldsAppend(tt: TimeText, fs: seq<Field>, f: Field)
    requires AllFlat(fs) && Flat(f) && fs != []
    ensures AllFlat(fs + [f]) && PrintFields(tt, fs + [f]) == PrintFields(tt, fs) + ", " + PrintField(tt, f)
  {
    assert (fs + [f])[0] == fs[0] && (fs + [f])[1..] == fs[1..] + [f];
    PrintMoreFieldsAppend(tt, fs[1..], f);
    Regrouped(PrintField(tt, fs[0]), PrintMoreFields(tt, fs[1..]), ", ", PrintField(tt, f));
  }

  lemma {:induction false} PrintMoreAppend(tt: TimeText, vs: seq<Value>, v: Value)
    requires AllSimple(vs) && !v.ListValue?
    ensures AllSimple(vs + [v]) && PrintMore(tt, vs + [v]) == PrintMore(tt, vs) + ", " + PrintSimple(tt, v)
  {
    if vs != [] {
      assert (vs + [v])[0] == vs[0] && (vs + [v])[1..] == vs[1..] + [v];
      PrintMoreAppend(tt, vs[1..], v);
      Regrouped(", " + PrintSimple(tt, vs[0]), PrintMore(tt, vs[1..]), ", ", PrintSimple(tt, v));
    } else {
      assert vs + [v] == [v] && [v][1..] == [];
    }
  }

  /** Printing one element more: a separator stands in front of every element but the first. */
  lemma PrintElementsAppend(tt: TimeText, vs: seq<Value>, v: Value)
    requires AllSimple(vs) && !v.ListValue?
    ensures AllSimple(vs + [v])
    ensures PrintElements(tt, vs + [v]) == PrintElements(tt, vs) + (if vs == [] then "" else ", ") + PrintSimple(tt, v)
  {
    if vs != [] {
      assert (vs + [v])[0] == vs[0] && (vs + [v])[1..] == vs[1..] + [v];
      PrintMoreAppend(tt, vs[1..], v);
      Regrouped(PrintSimple(tt, vs[0]), PrintMore(tt, vs[1..]), ", ", PrintSimple(tt, v));
    } else {
      assert vs + [v] == [v] && [v][1..] == [];
    }
  }

  // ----- Appending a field to a text that ends with other fields -----

  /** The text is an opening and the printed fields. */
  ghost predicate Printed(tt: TimeText, open: string, fs: seq<Field>, json: string) {
    AllFlat(fs) && fs != [] && json == open + PrintFields(tt, fs)
  }

  lemma PrintedMore(tt: TimeText, open: string, fs: seq<Field>, json: string, f: Field)
    requires Printed(tt, open, fs, json) && Flat(f)
    ensures Printed(tt, open, fs + [f], json + ", " + PrintField(tt, f))
  {
    PrintFieldsAppend(tt, fs, f);
    Regrouped(open, PrintFields(tt, fs), ", ", PrintField(tt, f));
  }

  /** The first field of an object, its id. */
  method PrintId(tt: TimeText, open: string, id: string) returns (json: string)
    ensures Printed(tt, open, [Field("Id", StringValue(id))], json)
  {
    json := open + (Key("Id") + Quoted(id));
    ghost var f := Field("Id", StringValue(id));
    assert [f][1..] == [];
    assert PrintField(tt, f) + "" == PrintField(tt, f);
  }

  method AddString(tt: TimeText, ghost open: string, ghost fs: seq<Field>, json: string, name: string, s: string)
    returns (r: string)
    requires Printed(tt, open, fs, json)
    ensures Printed(tt, open, fs + [Field(name, StringValue(s))], r)
  {
    r := json + ", " + (Key(name) + Quoted(s));
    PrintedMore(tt, open, fs, json, Field(name, StringValue(s)));
  }

  method AddBool(tt: TimeText, ghost open: string, ghost fs: seq<Field>, json: string, name: string, b: bool)
    returns (r: string)
    requires Printed(tt, open, fs, json)
    ensures Printed(tt, open, fs + [Field(name, BoolValue(b))], r)
  {
    r := json + ", " + (Key(name) + if b then "true" else "false");
    PrintedMore(tt, open, fs, json, Field(name, BoolValue(b)));
  }

  method AddTime(tt: TimeText, ghost open: string, ghost fs: seq<Field>, json: string, name: string, t: int)
    returns (r: string)
    requires Printed(tt, open, fs, json)
    ensures Printed(tt, open, fs + [Field(name, TimeValue(t))], r)
  {
    r := json + ", " + (Key(name) + ("time " + Quoted(tt(t))));
    PrintedMore(tt, open, fs, json, Field(name, TimeValue(t)));
  }

  // ----- Lists -----

  /** The elements of a list as the printers see them: texts, bytes or truth values. */
  datatype Elements = Texts(ids: seq<string>) | Numbers(bytes: seq<int>) | Flags(bits: seq<bool>)

  function Count(l: Elements): nat {
    match l case Texts(ids) => |ids| case Numbers(bytes) => |bytes| case Flags(bits) => |bits|
  }

  function ElementAt(l: Elements, k: nat): Value
    requires k < Count(l)
  {
    match l
    case Texts(ids) => StringValue(ids[k])
    case Numbers(bytes) => IntValue(bytes[k])
    case Flags(bits) => BoolValue(bits[k])
  }

  function ElementType(l: Elements): Type {
    match l case Texts(_) => StringType case Numbers(_) => IntType case Flags(_) => BoolType
  }

  function ValuesIn(l: Elements): (vs: seq<Value>)
    ensures |vs| == Count(l) && AllSimple(vs) && forall k :: 0 <= k < |vs| ==> vs[k] == ElementAt(l, k)
  {
    seq(Count(l), k requires 0 <= k < Count(l) => ElementAt(l, k))
  }

  /** The list as the reader will make it: nothing says of an empty list what type its elements have. */
  function ListOf(l: Elements): (v: Value)
    ensures v.ListValue? && AllSimple(v.elements)
  {
    ListValue(if Count(l) == 0 then AnyType else ElementType(l), ValuesIn(l))
  }

  /** The loop that every printer has for every list. */
  method PrintLoop(tt: TimeText, json: string, l: Elements) returns (r: string)
    ensures r == json + PrintElements(tt, ValuesIn(l))
  {
    r := json;
    ghost var vs := ValuesIn(l);
    for i := 0 to Count(l)
      invariant AllSimple(vs[..i]) && r == json + PrintElements(tt, vs[..i])
    {
      if i != 0 { r := r + ", "; }
      OneElementMore(tt, json, vs, i);
      match l {
        case Texts(ids) => r := r + Quoted(ids[i]);
        case Numbers(bytes) => r := r + Text(bytes[i]);
        case Flags(bits) => r := r + if bits[i] then "true" else "false";
      }
    }
    assert vs[..Count(l)] == vs;
  }

  /** What one turn of the loop adds. */
  lemma OneElementMore(tt: TimeText, json: string, vs: seq<Value>, i: nat)
    requires AllSimple(vs) && i < |vs|
    ensures AllSimple(vs[..i]) && AllSimple(vs[..i + 1])
    ensures var separator := if i == 0 then "" else ", ";
      && (json + PrintElements(tt, vs[..i])) + separator + PrintSimple(tt, vs[i]) == json + PrintElements(tt, vs[..i + 1])
      && (i == 0 ==> (json + PrintElements(tt, vs[..i])) + PrintSimple(tt, vs[i]) == json + PrintElements(tt, vs[..i + 1]))
  {
    PrintElementsAppend(tt, vs[..i], vs[i]);
    assert vs[..i + 1] == vs[..i] + [vs[i]];
    OneMore(json, PrintElements(tt, vs[..i]), if i == 0 then "" else ", ", PrintSimple(tt, vs[i]));
    if i == 0 { NoSeparator(json + PrintElements(tt, vs[..i])); }
  }

  lemma OneMore(a: string, b: string, c: string, d: string)
    ensures ((a + b) + c) + d == a + (b + c + d)
  {
  }

  lemma NoSeparator(a: string)
    ensures a + "" == a
  {
  }

  method AddList(tt: TimeText, ghost open: string, ghost fs: seq<Field>, json: string, name: string, l: Elements)
    returns (r: string)
    requires Printed(tt, open, fs, json)
    ensures Printed(tt, open, fs + [Field(name, ListOf(l))], r)
  {
    var elements := PrintLoop(tt, "", l);
    assert "" + PrintElements(tt, ValuesIn(l)) == PrintElements(tt, ValuesIn(l));
    r := json + ", " + (Key(name) + ("[" + elements + "]"));
    PrintedMore(tt, open, fs, json, Field(name, ListOf(l)));
  }
}
