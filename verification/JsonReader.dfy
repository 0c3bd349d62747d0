/**
The reader of stored objects: a recursive descent over the tokens of a text, with alternatives that push a token back
when they do not apply. Each function takes the text that is left and returns what it read and the text left after it.
*/
module JsonReader {
  import opened Basics
  import opened JsonTokens

  /** What the rest and time packages do: decode string contents, read a quoted time, and the text of one rune. */
  datatype Env = Env(decode: string -> string, unmarshalTime: string -> Option<int>, runeText: int -> string)

  /** The types that values have when they have been read, and the types that constructors ask for. */
  datatype Type = IntType | StringType | BoolType | TimeType | ByteType | AnyType | SliceType(elem: Type)

  /** A value; a time is the instant it stands for, and a list knows the type of its elements. */
  datatype Value =
    | IntValue(i: int)
    | StringValue(s: string)
    | BoolValue(b: bool)
    | TimeValue(instant: int)
    | ListValue(elem: Type, elements: seq<Value>)

  function TypeOf(v: Value): Type {
    match v
    case IntValue(_) => IntType
    case StringValue(_) => StringType
    case BoolValue(_) => BoolType
    case TimeValue(_) => TimeType
    case ListValue(t, _) => SliceType(t)
  }

  /** The result of a parser. Bad is an error return or a run-time error: neither has a caller that goes on. */
  datatype Parsed<+T> = Good(value: T, rest: string) | Bad

  /** A value that may be missing: the zero value of the reflection package. */
  type MaybeValue = Option<Value>

  // ----- Simple values -----

  /** parseJSON_number */
  function ParseNumber(s: string): (p: Parsed<MaybeValue>)
    ensures p.Good? ==> |p.rest| <= |s|
  {
    var t := NextToken(s);
    match ScanInt(t.text)
    case None => Good(None, PushBack(t))
    case Some(i) => Good(Some(IntValue(i)), t.rest)
  }

  /**
  The loop of parseJSON_string_value: where the text of the string starts and ends. When a quote is escaped, the search
  goes on behind it, and the text is then taken to start there.
  */
  function FindEnd(e: Env, r: string, start: nat): (o: Option<(nat, nat)>)
    requires start <= |r|
    ensures o.Some? ==> start <= o.value.0 <= o.value.1 < |r|
    decreases |r| - start
  {
    var p := Index(r[start..], QUOTE);
    if start + p == |r| then None
    else if QUOTE in e.decode(r[start..start + p + 1]) then Some((start, start + p))
    else FindEnd(e, r, start + p + 1)
  }

  /** parseJSON_string_value */
  function ParseString(e: Env, s: string): (p: Parsed<MaybeValue>)
    ensures p.Good? ==> |p.rest| <= |s|
  {
    var t := NextToken(s);
    if t.text != "\"" then Good(None, PushBack(t))
    else
      match FindEnd(e, t.rest, 0)
      case None => Bad
      case Some((from, to)) => Good(Some(StringValue(e.decode(t.rest[from..to]))), t.rest[to + 1..])
  }

  /** parseJSON_bool_value */
  function ParseBool(s: string): (p: Parsed<MaybeValue>)
    ensures p.Good? ==> |p.rest| <= |s|
  {
    var t := NextToken(s);
    if t.text == "true" then Good(Some(BoolValue(true)), t.rest)
    else if t.text == "false" then Good(Some(BoolValue(false)), t.rest)
    else Good(None, PushBack(t))
  }

  /** parseJSON_time_value: the text from the next quote to the one after it is the time. */
  function ParseTime(e: Env, s: string): (p: Parsed<MaybeValue>)
    ensures p.Good? ==> |p.rest| <= |s|
  {
    var t := NextToken(s);
    if t.text != "time" then Good(None, PushBack(t)) else TimeAfter(e, t.rest)
  }

  function TimeAfter(e: Env, r: string): (p: Parsed<MaybeValue>)
    ensures p.Good? ==> |p.rest| <= |r|
  {
    var first := Index(r, QUOTE);
    if first == |r| then Bad
    else
      var second := first + 1 + Index(r[first + 1..], QUOTE);
      if second == |r| then Bad
      else
        match e.unmarshalTime(r[first..second + 1])
        case None => Bad
        case Some(i) => Good(Some(TimeValue(i)), r[second + 1..])
  }

  /** parseJSON_simple_value: the first alternative that applies; each one that does not leaves the token in front. */
  function ParseSimple(e: Env, s: string): (p: Parsed<MaybeValue>)
    ensures p.Good? ==> |p.rest| <= |s|
  {
    var n := ParseNumber(s);
    if n.Bad? || n.value.Some? then n
    else
      var q := ParseString(e, n.rest);
      if q.Bad? || q.value.Some? then q
      else
        var b := ParseBool(q.rest);
        if b.Bad? || b.value.Some? then b
        else
          var t := ParseTime(e, b.rest);
          if t.Bad? || t.value.Some? then t else Bad
  }

  // ----- Values and arrays -----

  /** parseJSON_value */
  function ParseValue(e: Env, s: string): (p: Parsed<MaybeValue>)
    ensures p.Good? ==> |p.rest| <= |s|
    decreases |s|, 2
  {
    var t := NextToken(s);
    if t.text == "" then Good(None, "")
    else if t.text == "[" then ParseArray(e, PushBack(t))
    else ParseSimple(e, PushBack(t))
  }

  /** parseJSON_array_value */
  function ParseArray(e: Env, s: string): (p: Parsed<MaybeValue>)
    ensures p.Good? ==> |p.rest| <= |s|
    decreases |s|, 1
  {
    var t := NextToken(s);
    if t.text == "" then Good(None, "")
    else if t.text != "[" then Good(None, PushBack(t))
    else
      var u := NextToken(t.rest);
      if u.text == "]" then Good(Some(ListValue(AnyType, [])), u.rest)
      else
        var first := ParseValue(e, PushBack(u));
        if first.Bad? || first.value.None? then first else RestOfArray(e, first.value.value, first.rest)
  }

  /** The rest of an array, after its first element. */
  function RestOfArray(e: Env, first: Value, s: string): (p: Parsed<MaybeValue>)
    ensures p.Good? ==> |p.rest| <= |s|
    decreases |s|, 1
  {
    var others := ParseCommaValue(e, s, TypeOf(first));
    if others.Bad? then Bad
    else
      var t := NextToken(others.rest);
      if t.text != "]" then Bad
      else Good(Some(ListValue(TypeOf(first), [first] + others.value)), t.rest)
  }

  /** parseJSON_comma_value: an element that is missing or of another type is a run-time error of the append. */
  function ParseCommaValue(e: Env, s: string, elem: Type): (p: Parsed<seq<Value>>)
    ensures p.Good? ==> |p.rest| <= |s|
    decreases |s|, 0
  {
    var t := NextToken(s);
    if t.text != "," then Good([], PushBack(t)) else ValuesAfterComma(e, t.rest, elem)
  }

  /** One element more, and those that follow it. */
  function ValuesAfterComma(e: Env, s: string, elem: Type): (p: Parsed<seq<Value>>)
    ensures p.Good? ==> |p.rest| <= |s|
    decreases |s|, 3
  {
    var v := ParseValue(e, s);
    if v.Bad? || v.value.None? || TypeOf(v.value.value) != elem then Bad
    else
      var others := ParseCommaValue(e, v.rest, elem);
      if others.Bad? then Bad else Good([v.value.value] + others.value, others.rest)
  }

  // ----- Fields and objects -----

  /** parseJSON_field: a missing value where there is no field name. The name is read and then dropped by the callers. */
  function ParseField(e: Env, s: string): (p: Parsed<MaybeValue>)
    ensures p.Good? ==> |p.rest| <= |s|
  {
    var t := NextToken(s);
    if t.text == "" then Good(None, "")
    else if t.text != "\"" then Good(None, PushBack(t))
    else FieldAfterQuote(e, t.rest)
  }

  /** A name, a colon, and the value. */
  function FieldAfterQuote(e: Env, r: string): (p: Parsed<MaybeValue>)
    ensures p.Good? ==> |p.rest| <= |r|
  {
    var name := NameAndColon(r);
    if name.Bad? then Bad
    else
      var v := ParseValue(e, name.rest);
      if v.Good? && v.value.None? then Bad else v
  }

  /** The name up to the next quote, and a colon. */
  function NameAndColon(r: string): (p: Parsed<string>)
    ensures p.Good? ==> |p.rest| <= |r|
  {
    var n := Index(r, QUOTE);
    if n == |r| || n == 0 then Bad
    else
      var quote := NextToken(r[n..]);
      if quote.text != "\"" then Bad
      else
        var colon := NextToken(quote.rest);
        if colon.text != ":" then Bad else Good(r[..n], colon.rest)
  }

  /** parseJSON_comma_field: after a comma even a missing field is appended. */
  function ParseCommaField(e: Env, s: string): (p: Parsed<seq<MaybeValue>>)
    ensures p.Good? ==> |p.rest| <= |s|
    decreases |s|
  {
    var t := NextToken(s);
    if t.text != "," then Good([], PushBack(t))
    else
      var v := ParseField(e, t.rest);
      if v.Bad? then Bad
      else
        var others := ParseCommaField(e, v.rest);
        if others.Bad? then Bad else Good([v.value] + others.value, others.rest)
  }

  /** parseJSON_obj_value: None where there is no object. An object without fields is not read to its end. */
  function ParseObject(e: Env, s: string): (p: Parsed<Option<seq<MaybeValue>>>)
    ensures p.Good? ==> |p.rest| <= |s|
  {
    var t := NextToken(s);
    if t.text == "" then Good(None, "")
    else if t.text != "{" then Good(None, PushBack(t))
    else
      var first := ParseField(e, t.rest);
      if first.Bad? then Bad
      else if first.value.None? then Good(Some([]), first.rest)
      else
        var others := ParseCommaField(e, first.rest);
        if others.Bad? then Bad
        else
          var close := NextToken(others.rest);
          if close.text != "}" then Bad else Good(Some([first.value] + others.value), close.rest)
  }
}
