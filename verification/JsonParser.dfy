/** The reader of stored objects as the program runs it: methods that move a position through a text. */
module JsonParser {
  import opened Basics
  import opened JsonTokens
  import opened JsonReader

  /** A parser method has returned what the parser function returns, and left the text that it leaves. */
  ghost predicate Same<T(!new)>(p: Parsed<T>, r: Result<T>, left: string) {
    match p
    case Bad => r.Err?
    case Good(v, rest) => r == Ok(v) && left == rest
  }

  lemma Shift(text: string, pos: nat, k: nat)
    requires pos + k <= |text|
    ensures text[pos + k..] == text[pos..][k..]
  {
  }

  lemma ShiftPart(text: string, pos: nat, i: nat, j: nat)
    requires i <= j && pos + j <= |text|
    ensures text[pos + i..pos + j] == text[pos..][i..j]
  {
  }

  lemma NoEnd(e: Env, r: string, start: nat)
    requires start <= |r| && start + Index(r[start..], QUOTE) == |r|
    ensures FindEnd(e, r, start) == FindEnd(e, r, |r|) == None
  {
  }

  lemma NextEnd(e: Env, r: string, start: nat, p: nat)
    requires start <= |r| && p == Index(r[start..], QUOTE) && start + p < |r|
    ensures FindEnd(e, r, start) == (if QUOTE in e.decode(r[start..start + p + 1]) then Some((start, start + p))
                                     else FindEnd(e, r, start + p + 1))
  {
  }

  class Parser {
    const json: string
    var pos: nat
    ghost var left: string      // the text from the position on

    constructor (json: string)
      ensures this.json == json && pos == 0 && left == json && Valid()
    {
      this.json, pos, left := json, 0, json;
    }

    ghost predicate Valid()
      reads this
    {
      pos <= |json| && left == json[pos..]
    }

    /** Move the position forward. */
    method Advance(n: nat)
      requires Valid() && n <= |left|
      modifies this
      ensures Valid() && pos == old(pos) + n && left == old(left)[n..]
    {
      Shift(json, pos, n);
      pos, left := pos + n, left[n..];
    }

    /** strings.Index on the text from a place on, relative to that place; its length when nothing is found. */
    method Find(c: char, start: nat) returns (n: nat)
      requires Valid() && start <= |left|
      ensures n == Index(left[start..], c)
    {
      Shift(json, pos, start);
      n := Index(json[pos + start..], c);
    }

    method Part(i: nat, j: nat) returns (s: string)
      requires Valid() && i <= j <= |left|
      ensures s == left[i..j]
    {
      ShiftPart(json, pos, i, j);
      s := json[pos + i..pos + j];
    }

    /** parseJSON_findNextToken */
    method FindNextToken() returns (token: string)
      requires Valid()
      modifies this
      ensures Valid() && old(pos) <= pos
      ensures token == NextToken(old(left)).text && left == NextToken(old(left)).rest
      ensures CanPushBack(token)
      ensures token == "" ==> pos == |json|
      ensures token != "" ==> old(pos) < pos && old(pos) <= pos - |token|
    {
      TrimIsEnd(left);
      var trimmed := Trim(json[pos..]);
      if |trimmed| == 0 {
        pos, left := |json|, "";
        return "";
      }
      Advance(|json[pos..]| - |trimmed|);
      token := TakeToken();
    }

    /** The part of parseJSON_findNextToken behind the white space. */
    method TakeToken() returns (token: string)
      requires Valid() && left != ""
      modifies this
      ensures Valid() && old(pos) <= pos - |token| && token != ""
      ensures token == TokenOf(old(left)).text && left == TokenOf(old(left)).rest
      ensures CanPushBack(token)
    {
      var rest := json[pos..];
      var n := if IsSpecial(rest[0]) then 1 else 1 + WordLength(rest[1..]);
      token := rest[..n];
      Shift(json, pos, n);
      assert left == token + left[n..];
      Advance(n);
    }

    ghost predicate CanPushBack(token: string)
      reads this
    {
      |token| <= pos <= |json| && json[pos - |token|..] == token + left
    }

    /** parseJSON_pushTokenBack */
    method PushTokenBack(token: string)
      requires Valid() && CanPushBack(token)
      modifies this
      ensures Valid() && pos == old(pos) - |token| && left == token + old(left)
    {
      pos, left := pos - |token|, token + left;
    }

    method Number() returns (r: Result<MaybeValue>)
      requires Valid()
      modifies this
      ensures Valid() && old(pos) <= pos && Same(ParseNumber(old(left)), r, left)
    {
      var token := FindNextToken();
      var number := ScanInt(token);
      if number.None? {
        PushTokenBack(token);
        return Ok(None);
      }
      r := Ok(Some(IntValue(number.value)));
    }

    /** parseJSON_string_value, with its search for the closing quote. */
    method StringText(e: Env) returns (r: Result<MaybeValue>)
      requires Valid()
      modifies this
      ensures Valid() && old(pos) <= pos && Same(ParseString(e, old(left)), r, left)
    {
      var token := FindNextToken();
      if token != "\"" {
        PushTokenBack(token);
        return Ok(None);
      }
      var end := ClosingQuote(e);
      if end.None? { return Err; }
      var (from, to) := end.value;
      var text := Part(from, to);
      Advance(to + 1);
      r := Ok(Some(StringValue(e.decode(text))));
    }

    /** Is the quote at a place still there when the text up to it is decoded? */
    method Closes(e: Env, from: nat, to: nat) returns (closes: bool)
      requires Valid() && from <= to < |left|
      ensures closes == (QUOTE in e.decode(left[from..to + 1]))
    {
      var candidate := Part(from, to + 1);
      closes := QUOTE in e.decode(candidate);
    }

    /** One turn of the loop of parseJSON_string_value, from a place behind the position. */
    method Turn(e: Env, start: nat) returns (end: Option<(nat, nat)>, next: nat)
      requires Valid() && start < |left|
      ensures end.Some? ==> end == FindEnd(e, left, start)
      ensures end.None? ==> start < next <= |left| && FindEnd(e, left, start) == FindEnd(e, left, next)
    {
      var p := Find(QUOTE, start);
      if pos + start + p == |json| {
        NoEnd(e, left, start);
        return None, start + p;
      }
      NextEnd(e, left, start, p);
      next := start + p + 1;
      var closes := Closes(e, start, start + p);
      end := if closes then Some((start, start + p)) else None;
    }

    /** The loop of parseJSON_string_value; places are counted from the position. */
    method ClosingQuote(e: Env) returns (end: Option<(nat, nat)>)
      requires Valid()
      ensures end == FindEnd(e, left, 0)
    {
      var start := 0;
      end := None;
      while pos + start < |json| && end.None?
        invariant start <= |left|
        invariant FindEnd(e, left, 0) == if end.Some? then end else FindEnd(e, left, start)
        decreases |left| - start, end.None?
      {
        var next: nat;
        end, next := Turn(e, start);
        if end.None? { start := next; }
      }
    }

    method Boolean() returns (r: Result<MaybeValue>)
      requires Valid()
      modifies this
      ensures Valid() && old(pos) <= pos && Same(ParseBool(old(left)), r, left)
    {
      var token := FindNextToken();
      if token == "true" { return Ok(Some(BoolValue(true))); }
      if token == "false" { return Ok(Some(BoolValue(false))); }
      PushTokenBack(token);
      r := Ok(None);
    }

    method Time(e: Env) returns (r: Result<MaybeValue>)
      requires Valid()
      modifies this
      ensures Valid() && old(pos) <= pos && Same(ParseTime(e, old(left)), r, left)
    {
      var token := FindNextToken();
      if token != "time" {
        PushTokenBack(token);
        return Ok(None);
      }
      r := QuotedTime(e);
    }

    method QuotedTime(e: Env) returns (r: Result<MaybeValue>)
      requires Valid()
      modifies this
      ensures Valid() && old(pos) <= pos && Same(TimeAfter(e, old(left)), r, left)
    {
      var first := Find(QUOTE, 0);
      if pos + first == |json| { return Err; }
      var second := Find(QUOTE, first + 1);
      second := first + 1 + second;
      if pos + second == |json| { return Err; }
      var quoted := Part(first, second + 1);
      var t := e.unmarshalTime(quoted);
      if t.None? { return Err; }
      Advance(second + 1);
      r := Ok(Some(TimeValue(t.value)));
    }

    /** parseJSON_simple_value */
    method Simple(e: Env) returns (r: Result<MaybeValue>)
      requires Valid()
      modifies this
      ensures Valid() && old(pos) <= pos && Same(ParseSimple(e, old(left)), r, left)
    {
      r := Number();
      if r.Err? || r.value.Some? { return; }
      r := StringText(e);
      if r.Err? || r.value.Some? { return; }
      r := Boolean();
      if r.Err? || r.value.Some? { return; }
      r := Time(e);
      if r.Err? || r.value.Some? { return; }
      r := Err;
    }

    /** parseJSON_value */
    method AnyValue(e: Env) returns (r: Result<MaybeValue>)
      requires Valid()
      modifies this
      ensures Valid() && old(pos) <= pos && Same(ParseValue(e, old(left)), r, left)
      decreases |json| - pos, 2
    {
      var token := FindNextToken();
      if token == "" { return Ok(None); }
      PushTokenBack(token);
      if token == "[" {
        r := Array(e);
      } else {
        r := Simple(e);
      }
    }

    /** parseJSON_array_value */
    method Array(e: Env) returns (r: Result<MaybeValue>)
      requires Valid()
      modifies this
      ensures Valid() && old(pos) <= pos && Same(ParseArray(e, old(left)), r, left)
      decreases |json| - pos, 1
    {
      var token := FindNextToken();
      if token == "" { return Ok(None); }
      if token != "[" {
        PushTokenBack(token);
        return Ok(None);
      }
      token := FindNextToken();
      if token == "]" { return Ok(Some(ListValue(AnyType, []))); }
      PushTokenBack(token);
      r := AnyValue(e);
      if r.Err? || r.value.None? { return; }
      r := ArrayAfter(e, r.value.value);
    }

    method ArrayAfter(e: Env, first: Value) returns (r: Result<MaybeValue>)
      requires Valid()
      modifies this
      ensures Valid() && old(pos) <= pos && Same(RestOfArray(e, first, old(left)), r, left)
      decreases |json| - pos, 1
    {
      var others := CommaValue(e, TypeOf(first));
      if others.Err? { return Err; }
      var token := FindNextToken();
      if token != "]" { return Err; }
      r := Ok(Some(ListValue(TypeOf(first), [first] + others.value)));
    }

    /** parseJSON_comma_value */
    method CommaValue(e: Env, elem: Type) returns (r: Result<seq<Value>>)
      requires Valid()
      modifies this
      ensures Valid() && old(pos) <= pos && Same(ParseCommaValue(e, old(left), elem), r, left)
      decreases |json| - pos, 0
    {
      var token := FindNextToken();
      if token != "," {
        PushTokenBack(token);
        return Ok([]);
      }
      r := ValueAfterComma(e, elem);
    }

    /** The part of parseJSON_comma_value behind the comma. */
    method ValueAfterComma(e: Env, elem: Type) returns (r: Result<seq<Value>>)
      requires Valid()
      modifies this
      ensures Valid() && old(pos) <= pos && Same(ValuesAfterComma(e, old(left), elem), r, left)
      decreases |json| - pos, 3
    {
      var v := AnyValue(e);
      if v.Err? || v.value.None? || TypeOf(v.value.value) != elem { return Err; }
      var others := CommaValue(e, elem);
      if others.Err? { return Err; }
      r := Ok([v.value.value] + others.value);
    }

    /** parseJSON_field */
    method Field(e: Env) returns (r: Result<MaybeValue>)
      requires Valid()
      modifies this
      ensures Valid() && old(pos) <= pos && Same(ParseField(e, old(left)), r, left)
    {
      var token := FindNextToken();
      if token == "" { return Ok(None); }
      if token != "\"" {
        PushTokenBack(token);
        return Ok(None);
      }
      r := NamedField(e);
    }

    method NamedField(e: Env) returns (r: Result<MaybeValue>)
      requires Valid()
      modifies this
      ensures Valid() && old(pos) <= pos && Same(FieldAfterQuote(e, old(left)), r, left)
    {
      var name := FieldName();
      if name.Err? { return Err; }
      r := AnyValue(e);
      if r.Ok? && r.value.None? { r := Err; }
    }

    /** The part of parseJSON_field that reads the name and the colon. */
    method FieldName() returns (r: Result<string>)
      requires Valid()
      modifies this
      ensures Valid() && old(pos) <= pos && Same(NameAndColon(old(left)), r, left)
    {
      var n := Find(QUOTE, 0);
      if pos + n == |json| || n == 0 { return Err; }
      var name := json[pos..pos + n];
      assert left[0..] == left && name == left[..n];
      Advance(n);
      var token := FindNextToken();
      if token != "\"" { return Err; }
      token := FindNextToken();
      if token != ":" { return Err; }
      r := Ok(name);
    }

    /** parseJSON_comma_field */
    method CommaField(e: Env) returns (r: Result<seq<MaybeValue>>)
      requires Valid()
      modifies this
      ensures Valid() && old(pos) <= pos && Same(ParseCommaField(e, old(left)), r, left)
      decreases |json| - pos
    {
      var token := FindNextToken();
      if token != "," {
        PushTokenBack(token);
        return Ok([]);
      }
      var v := Field(e);
      if v.Err? { return Err; }
      var others := CommaField(e);
      if others.Err? { return Err; }
      r := Ok([v.value] + others.value);
    }

    /** parseJSON and parseJSON_obj_value */
    method Object(e: Env) returns (r: Result<Option<seq<MaybeValue>>>)
      requires Valid()
      modifies this
      ensures Valid() && old(pos) <= pos && Same(ParseObject(e, old(left)), r, left)
    {
      var token := FindNextToken();
      if token == "" { return Ok(None); }
      if token != "{" {
        PushTokenBack(token);
        return Ok(None);
      }
      var first := Field(e);
      if first.Err? { return Err; }
      if first.value.None? { return Ok(Some([])); }
      var others := CommaField(e);
      if others.Err? { return Err; }
      token := FindNextToken();
      if token != "}" { return Err; }
      r := Ok(Some([first.value] + others.value));
    }
  }
}
