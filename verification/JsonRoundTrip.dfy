/** The format in which objects are printed, and the proof that reading undoes printing. */
module JsonRoundTrip {
  import opened Basics
  import opened Decimal
  import opened JsonTokens
  import opened JsonReader

  // ----- The printed format -----

  /** The text of a time, without its quotes, is up to the time package. */
  type TimeText = int -> string

  function Quoted(s: string): string { [QUOTE] + s + [QUOTE] }

  /** One value, as the printers write it. */
  function PrintSimple(tt: TimeText, v: Value): string
    requires !v.ListValue?
  {
    match v
    case IntValue(i) => Text(i)
    case StringValue(s) => Quoted(s)
    case BoolValue(b) => if b then "true" else "false"
    case TimeValue(t) => "time " + Quoted(tt(t))
  }

  predicate AllSimple(vs: seq<Value>) { forall k :: 0 <= k < |vs| ==> !vs[k].ListValue? }

  /** The elements after the first, each with its separator. */
  function PrintMore(tt: TimeText, vs: seq<Value>): string
    requires AllSimple(vs)
  {
    if vs == [] then "" else ", " + PrintSimple(tt, vs[0]) + PrintMore(tt, vs[1..])
  }

  /** The elements of a list. */
  function PrintElements(tt: TimeText, vs: seq<Value>): string
    requires AllSimple(vs)
  {
    if vs == [] then "" else PrintSimple(tt, vs[0]) + PrintMore(tt, vs[1..])
  }

  /** A simple value, or a flat list in brackets. */
  function PrintValue(tt: TimeText, v: Value): string
    requires v.ListValue? ==> AllSimple(v.elements)
  {
    if v.ListValue? then "[" + PrintElements(tt, v.elements) + "]" else PrintSimple(tt, v)
  }

  datatype Field = Field(name: string, value: Value)

  predicate Flat(f: Field) { f.value.ListValue? ==> AllSimple(f.value.elements) }

  predicate AllFlat(fs: seq<Field>) { forall k :: 0 <= k < |fs| ==> Flat(fs[k]) }

  function Key(name: string): string { Quoted(name) + ": " }

  function PrintField(tt: TimeText, f: Field): string
    requires Flat(f)
  {
    Key(f.name) + PrintValue(tt, f.value)
  }

  function PrintMoreFields(tt: TimeText, fs: seq<Field>): string
    requires AllFlat(fs)
  {
    if fs == [] then "" else ", " + PrintField(tt, fs[0]) + PrintMoreFields(tt, fs[1..])
  }

  function PrintFields(tt: TimeText, fs: seq<Field>): string
    requires AllFlat(fs)
  {
    if fs == [] then "" else PrintField(tt, fs[0]) + PrintMoreFields(tt, fs[1..])
  }

  // ----- What can be read back -----

  /** Text that needs no escaping. */
  predicate Plain(s: string) { QUOTE !in s && '\\' !in s }

  /** The other packages do their part: plain text is decoded to itself, and a time is read from its own text. */
  ghost predicate Faithful(e: Env, tt: TimeText) {
    && (forall s: string {:trigger e.decode(s)} :: Plain(s) ==> e.decode(s) == s)
    && (forall s: string {:trigger e.decode(s + [QUOTE])} :: Plain(s) ==> QUOTE in e.decode(s + [QUOTE]))
    && (forall t: int {:trigger tt(t)} :: QUOTE !in tt(t) && e.unmarshalTime(Quoted(tt(t))) == Some(t))
  }

  predicate ReadableSimple(v: Value) {
    match v
    case IntValue(i) => InInt64(i)
    case StringValue(s) => Plain(s)
    case BoolValue(_) => true
    case TimeValue(_) => true
    case ListValue(_, _) => false
  }

  /** A value as the reader makes it: a list is flat, of one type, and an empty one is of no particular type. */
  predicate Readable(v: Value) {
    if v.ListValue? then
      && (v.elements == [] ==> v.elem == AnyType)
      && ReadableElements(v.elements, v.elem)
    else ReadableSimple(v)
  }

  predicate ReadableField(f: Field) { f.name != "" && QUOTE !in f.name && Readable(f.value) }

  predicate AllReadable(fs: seq<Field>) { forall k :: 0 <= k < |fs| ==> ReadableField(fs[k]) }

  /** The text goes on with a character that ends a value. */
  predicate Ends(more: string) { more != "" && (more[0] == ',' || more[0] == ']' || more[0] == '}') }

  // ----- Tokens of printed text -----

  lemma WordFirst(w: string, more: string)
    requires IsWord(w) && more != "" && IsDelimiter(more[0])
    ensures NextToken(w + more) == Tok(w, more)
  {
    assert more == [more[0]] + more[1..];
    assert w + more == w + [more[0]] + more[1..];
    WordToken(w, more[0], more[1..]);
  }

  lemma QuoteFirst(s: string, more: string)
    ensures NextToken(Quoted(s) + more) == Tok([QUOTE], s + [QUOTE] + more)
  {
    assert Quoted(s) + more == [QUOTE] + (s + [QUOTE] + more);
    SpecialToken(QUOTE, s + [QUOTE] + more);
  }

  lemma IntRead(i: int, more: string)
    requires InInt64(i) && Ends(more)
    ensures ParseNumber(Text(i) + more) == Good(Some(IntValue(i)), more)
  {
    TextIsWord(i);
    WordFirst(Text(i), more);
    ScanIntOfText(i);
  }

  /** A word that is no number is pushed back, and the text is as it was. */
  lemma NotANumber(s: string)
    requires s != "" && !IsSpace(s[0]) && ScanInt(NextToken(s).text).None?
    ensures ParseNumber(s) == Good(None, s)
  {
    assert PushBack(NextToken(s)) == s;
  }

  lemma NotAString(e: Env, s: string)
    requires s != "" && !IsSpace(s[0]) && NextToken(s).text != "\""
    ensures ParseString(e, s) == Good(None, s)
  {
    assert PushBack(NextToken(s)) == s;
  }

  lemma NotABool(s: string)
    requires s != "" && !IsSpace(s[0]) && NextToken(s).text != "true" && NextToken(s).text != "false"
    ensures ParseBool(s) == Good(None, s)
  {
    assert PushBack(NextToken(s)) == s;
  }

  /** The search finds the closing quote of plain text. */
  lemma FindEndOfPlain(e: Env, tt: TimeText, s: string, more: string)
    requires Faithful(e, tt) && Plain(s)
    ensures FindEnd(e, s + [QUOTE] + more, 0) == Some((0, |s|))
  {
    var r := s + [QUOTE] + more;
    IndexSkips(s, QUOTE, more);
    assert r[0..] == r;
    assert r[0..|s| + 1] == s + [QUOTE];
  }

  lemma StringRead(e: Env, tt: TimeText, s: string, more: string)
    requires Faithful(e, tt) && Plain(s)
    ensures ParseString(e, Quoted(s) + more) == Good(Some(StringValue(s)), more)
  {
    QuoteFirst(s, more);
    FindEndOfPlain(e, tt, s, more);
    var r := s + [QUOTE] + more;
    assert r[0..|s|] == s && r[|s| + 1..] == more;
  }

  /** Text without an escape character is read back as it was exactly when it has no quote: printers escape nothing. */
  lemma StringReadIff(e: Env, tt: TimeText, s: string, more: string)
    requires Faithful(e, tt) && '\\' !in s
    ensures ParseString(e, Quoted(s) + more) == Good(Some(StringValue(s)), more) <==> QUOTE !in s
  {
    if QUOTE !in s {
      StringRead(e, tt, s, more);
    } else {
      var n := Index(s, QUOTE);
      IndexFinds(s, QUOTE);
      var head, tail := s[..n], s[n + 1..] + [QUOTE] + more;
      assert Quoted(s) + more == Quoted(head) + tail;
      StringRead(e, tt, head, tail);
    }
  }

  /** The piece of the text from `b` to the quote at `q`, decoded, has no quote: the quote is escaped. */
  predicate Escaped(e: Env, r: string, b: nat, q: nat)
    requires b <= q < |r|
  {
    QUOTE !in e.decode(r[b..q + 1])
  }

  /** The next quote behind `b` is at `q`, and `b` is the start or behind a quote. */
  predicate Piece(r: string, start: nat, b: nat, q: nat) {
    start <= b <= q < |r| && r[q] == QUOTE && QUOTE !in r[b..q] && (b == start || r[b - 1] == QUOTE)
  }

  /** Every quote before `limit` is escaped. */
  ghost predicate EscapedBefore(e: Env, r: string, start: nat, limit: nat) {
    forall b: nat, q: nat {:trigger Piece(r, start, b, q)} :: Piece(r, start, b, q) && q < limit ==> Escaped(e, r, b, q)
  }

  /** The end `to` is at a quote that is not escaped, with `from` behind the quote before it; earlier quotes are escaped. */
  ghost predicate EndFound(e: Env, r: string, start: nat, o: Option<(nat, nat)>) {
    match o
    case Some((from, to)) => Piece(r, start, from, to) && !Escaped(e, r, from, to) && EscapedBefore(e, r, start, to)
    case None => EscapedBefore(e, r, start, |r|)
  }

  /**
  In any text, whatever the decoder does with it: the string ends at the first quote that is not escaped, and there is no
  end when all are. The text that is taken is the last piece, between that quote and the one before it.
  */
  lemma {:induction false} FindEndMeans(e: Env, r: string, start: nat)
    requires start <= |r|
    ensures EndFound(e, r, start, FindEnd(e, r, start))
    decreases |r| - start
  {
    var first := start + Index(r[start..], QUOTE);
    NextQuote(r, start);
    if first < |r| && Escaped(e, r, start, first) {
      FindEndMeans(e, r, first + 1);
      FindEndSkips(e, r, start);
      EndFoundLater(e, r, start, first, FindEnd(e, r, first + 1));
    } else {
      NoPieceBefore(e, r, start, first);
    }
  }

  lemma EndFoundLater(e: Env, r: string, start: nat, first: nat, o: Option<(nat, nat)>)
    requires start <= |r| && first == start + Index(r[start..], QUOTE) < |r| && Escaped(e, r, start, first)
    requires EndFound(e, r, first + 1, o)
    ensures EndFound(e, r, start, o)
  {
    NextQuote(r, start);
    if o.Some? { LaterPiece(r, start, first, o.value.0, o.value.1); }
    OnePieceMore(e, r, start, first, if o.Some? then o.value.1 else |r|);
  }

  lemma FindEndSkips(e: Env, r: string, start: nat)
    requires start <= |r|
    ensures var first := start + Index(r[start..], QUOTE);
      first < |r| && Escaped(e, r, start, first) ==> FindEnd(e, r, start) == FindEnd(e, r, first + 1)
  {
  }

  lemma LaterPiece(r: string, start: nat, first: nat, b: nat, q: nat)
    requires start <= first < |r| && r[first] == QUOTE && Piece(r, first + 1, b, q)
    ensures Piece(r, start, b, q)
  {
  }

  lemma NoPieceBefore(e: Env, r: string, start: nat, first: nat)
    requires forall i :: start <= i < first && i < |r| ==> r[i] != QUOTE
    ensures EscapedBefore(e, r, start, first)
  {
  }

  lemma OnePieceMore(e: Env, r: string, start: nat, first: nat, limit: nat)
    requires start <= |r| && first == start + Index(r[start..], QUOTE) < |r| && Escaped(e, r, start, first)
    requires EscapedBefore(e, r, first + 1, limit)
    ensures EscapedBefore(e, r, start, limit)
  {
    forall b: nat, q: nat | Piece(r, start, b, q) && q < limit ensures Escaped(e, r, b, q) {
      OnePiece(r, start, b, q);
    }
  }

  lemma NextQuote(r: string, start: nat)
    requires start <= |r|
    ensures var q := start + Index(r[start..], QUOTE);
      && (q < |r| ==> Piece(r, start, start, q)) && (forall i :: start <= i < q ==> r[i] != QUOTE)
  {
    var p := Index(r[start..], QUOTE);
    IndexFinds(r[start..], QUOTE);
    forall i | start <= i < start + p ensures r[i] != QUOTE { assert r[i] == r[start..][i - start]; }
    if start + p < |r| { assert r[start + p] == r[start..][p]; }
  }

  /** A piece is the first one, or it is a piece of what follows the first one. */
  lemma OnePiece(r: string, start: nat, b: nat, q: nat)
    requires Piece(r, start, b, q)
    ensures var first := start + Index(r[start..], QUOTE);
      first < |r| && ((b == start && q == first) || Piece(r, first + 1, b, q))
  {
    NextQuote(r, start);
  }

  lemma TimeRead(e: Env, tt: TimeText, t: int, more: string)
    requires Faithful(e, tt)
    ensures TimeAfter(e, " " + Quoted(tt(t)) + more) == Good(Some(TimeValue(t)), more)
  {
    var x := tt(t);
    var r := " " + Quoted(x) + more;
    assert r == " " + [QUOTE] + (x + [QUOTE] + more);
    IndexSkips(" ", QUOTE, x + [QUOTE] + more);
    assert r[2..] == x + [QUOTE] + more;
    IndexSkips(x, QUOTE, more);
    assert r[1..|x| + 3] == Quoted(x) && r[|x| + 3..] == more;
  }

  // ----- Simple values -----

  lemma WordBool(b: bool, more: string)
    requires Ends(more)
    ensures var w := if b then "true" else "false"; NextToken(w + more) == Tok(w, more) && ScanInt(w).None?
  {
    WordFirst(if b then "true" else "false", more);
  }

  lemma BoolSimple(e: Env, b: bool, more: string)
    requires Ends(more)
    ensures ParseSimple(e, (if b then "true" else "false") + more) == Good(Some(BoolValue(b)), more)
  {
    var s := (if b then "true" else "false") + more;
    WordBool(b, more);
    NotANumber(s);
    NotAString(e, s);
  }

  lemma WordTime(more: string)
    requires more != "" && more[0] == ' '
    ensures NextToken("time" + more) == Tok("time", more) && ScanInt("time").None?
  {
    WordFirst("time", more);
  }

  lemma TimeSimple(e: Env, tt: TimeText, t: int, more: string)
    requires Faithful(e, tt)
    ensures ParseSimple(e, "time " + Quoted(tt(t)) + more) == Good(Some(TimeValue(t)), more)
  {
    var s := "time " + Quoted(tt(t)) + more;
    var after := " " + Quoted(tt(t)) + more;
    assert s == "time" + after;
    WordTime(after);
    NotANumber(s);
    NotAString(e, s);
    NotABool(s);
    TimeRead(e, tt, t, more);
  }

  lemma StringSimple(e: Env, tt: TimeText, x: string, more: string)
    requires Faithful(e, tt) && Plain(x)
    ensures ParseSimple(e, Quoted(x) + more) == Good(Some(StringValue(x)), more)
  {
    QuoteFirst(x, more);
    NotANumber(Quoted(x) + more);
    StringRead(e, tt, x, more);
  }

  /** Whatever alternatives fail first, the simple value is read and its end is found. */
  lemma SimpleRead(e: Env, tt: TimeText, v: Value, more: string)
    requires Faithful(e, tt) && ReadableSimple(v) && Ends(more)
    ensures ParseSimple(e, PrintSimple(tt, v) + more) == Good(Some(v), more)
  {
    match v
    case IntValue(i) => IntRead(i, more);
    case StringValue(s) => StringSimple(e, tt, s, more);
    case BoolValue(b) => BoolSimple(e, b, more);
    case TimeValue(t) => TimeSimple(e, tt, t, more);
  }

  /** How a printed simple value starts. */
  lemma SimpleStarts(tt: TimeText, v: Value, more: string)
    requires !v.ListValue? && Ends(more)
    ensures var s := PrintSimple(tt, v) + more;
      s != "" && !IsSpace(s[0]) && NextToken(s).text != "" && NextToken(s).text != "[" && NextToken(s).text != "]"
  {
    match v
    case IntValue(i) => TextIsWord(i); WordFirst(Text(i), more);
    case StringValue(s) => QuoteFirst(s, more);
    case BoolValue(b) => WordBool(b, more);
    case TimeValue(t) =>
      assert "time " + Quoted(tt(t)) + more == "time" + (" " + Quoted(tt(t)) + more);
      WordTime(" " + Quoted(tt(t)) + more);
  }

  /** parseJSON_value on a printed simple value. */
  lemma SimpleValueRead(e: Env, tt: TimeText, v: Value, more: string)
    requires Faithful(e, tt) && ReadableSimple(v) && Ends(more)
    ensures ParseValue(e, PrintSimple(tt, v) + more) == Good(Some(v), more)
  {
    SimpleStarts(tt, v, more);
    SimpleRead(e, tt, v, more);
    assert PushBack(NextToken(PrintSimple(tt, v) + more)) == PrintSimple(tt, v) + more;
  }

  /** Space in front of a value makes no difference. */
  lemma SpacedValue(e: Env, s: string)
    ensures ParseValue(e, " " + s) == ParseValue(e, s)
  {
    SpaceSkipped(s);
  }

  // ----- Lists -----

  lemma Separated(a: string, b: string, c: string)
    ensures ((", " + a) + b) + c == "," + (" " + (a + (b + c)))
  {
    assert ", " == "," + " ";
  }

  predicate ReadableElements(vs: seq<Value>, elem: Type) {
    forall k :: 0 <= k < |vs| ==> ReadableSimple(vs[k]) && TypeOf(vs[k]) == elem
  }

  lemma ElementsAreSimple(vs: seq<Value>, elem: Type)
    requires ReadableElements(vs, elem)
    ensures AllSimple(vs)
  {
    forall k | 0 <= k < |vs| ensures !vs[k].ListValue? { assert ReadableSimple(vs[k]); }
  }

  lemma {:induction false} MoreRead(e: Env, tt: TimeText, vs: seq<Value>, elem: Type, more: string)
    requires Faithful(e, tt) && more != "" && more[0] == ']'
    requires ReadableElements(vs, elem) && AllSimple(vs)
    ensures ParseCommaValue(e, PrintMore(tt, vs) + more, elem) == Good(vs, more)
    decreases |vs|
  {
    if vs == [] {
      assert PrintMore(tt, vs) + more == more;
      NotAComma(more);
    } else {
      var after := PrintMore(tt, vs[1..]) + more;
      MoreRead(e, tt, vs[1..], elem, more);
      MoreEnds(tt, vs[1..], more);
      OneMoreRead(e, tt, vs, elem, more, after);
      Separated(PrintSimple(tt, vs[0]), PrintMore(tt, vs[1..]), more);
    }
  }

  lemma OneMoreRead(e: Env, tt: TimeText, vs: seq<Value>, elem: Type, more: string, after: string)
    requires Faithful(e, tt) && vs != [] && ReadableElements(vs, elem) && Ends(after)
    requires ParseCommaValue(e, after, elem) == Good(vs[1..], more)
    ensures !vs[0].ListValue? && ParseCommaValue(e, "," + (" " + (PrintSimple(tt, vs[0]) + after)), elem) == Good(vs, more)
  {
    assert ReadableSimple(vs[0]);
    SimpleValueRead(e, tt, vs[0], after);
    OneMore(e, PrintSimple(tt, vs[0]) + after, elem, vs, more, after);
  }

  lemma MoreEnds(tt: TimeText, vs: seq<Value>, more: string)
    requires AllSimple(vs) && Ends(more)
    ensures Ends(PrintMore(tt, vs) + more)
  {
    if vs == [] { assert PrintMore(tt, vs) + more == more; } else { assert PrintMore(tt, vs)[0] == ','; }
  }

  lemma NotAComma(more: string)
    requires more != "" && (more[0] == ']' || more[0] == '}')
    ensures NextToken(more) == Tok([more[0]], more[1..]) && PushBack(NextToken(more)) == more
  {
    assert more == [more[0]] + more[1..];
    SpecialToken(more[0], more[1..]);
  }

  /** A comma, an element, and the elements after it. */
  lemma OneMore(e: Env, s: string, elem: Type, vs: seq<Value>, more: string, after: string)
    requires vs != [] && TypeOf(vs[0]) == elem && ParseValue(e, s) == Good(Some(vs[0]), after)
    requires ParseCommaValue(e, after, elem) == Good(vs[1..], more)
    ensures ParseCommaValue(e, "," + (" " + s), elem) == Good(vs, more)
  {
    SpecialToken(',', " " + s);
    SpacedValue(e, s);
    assert [vs[0]] + vs[1..] == vs;
  }

  /** parseJSON_value on a printed list. */
  lemma ListRead(e: Env, tt: TimeText, elem: Type, vs: seq<Value>, more: string)
    requires Faithful(e, tt) && Readable(ListValue(elem, vs))
    ensures AllSimple(vs)
    ensures ParseValue(e, "[" + PrintElements(tt, vs) + "]" + more) == Good(Some(ListValue(elem, vs)), more)
  {
    ElementsAreSimple(vs, elem);
    if vs == [] {
      EmptyListRead(e, more);
      assert PrintElements(tt, vs) == "";
    } else {
      var after := PrintMore(tt, vs[1..]) + ("]" + more);
      MoreRead(e, tt, vs[1..], elem, "]" + more);
      MoreEnds(tt, vs[1..], "]" + more);
      SimpleValueRead(e, tt, vs[0], after);
      SimpleStarts(tt, vs[0], after);
      FirstElement(e, PrintSimple(tt, vs[0]) + after, vs, after, more);
      Bracketed(PrintSimple(tt, vs[0]), PrintMore(tt, vs[1..]), more);
    }
  }

  lemma Bracketed(a: string, b: string, c: string)
    ensures (("[" + (a + b)) + "]") + c == ['['] + (a + (b + ("]" + c)))
  {
  }

  lemma EmptyListRead(e: Env, more: string)
    ensures ParseValue(e, "[" + "" + "]" + more) == Good(Some(ListValue(AnyType, [])), more)
  {
    var inside := [']'] + more;
    assert "[" + "" + "]" + more == ['['] + inside;
    SpecialToken('[', inside);
    SpecialToken(']', more);
    assert PushBack(NextToken(['['] + inside)) == ['['] + inside;
  }

  lemma FirstElement(e: Env, inside: string, vs: seq<Value>, after: string, more: string)
    requires inside != "" && !IsSpace(inside[0]) && NextToken(inside).text != "]" && vs != []
    requires ParseValue(e, inside) == Good(Some(vs[0]), after)
    requires ParseCommaValue(e, after, TypeOf(vs[0])) == Good(vs[1..], "]" + more)
    ensures ParseValue(e, ['['] + inside) == Good(Some(ListValue(TypeOf(vs[0]), vs)), more)
  {
    SpecialToken('[', inside);
    assert PushBack(NextToken(['['] + inside)) == ['['] + inside;
    assert PushBack(NextToken(inside)) == inside;
    SpecialToken(']', more);
    assert [vs[0]] + vs[1..] == vs;
    assert ParseArray(e, ['['] + inside) == RestOfArray(e, vs[0], after);
  }

  // ----- Lists that are not read -----

  /** Each is a simple value that can be read, of whatever type. */
  predicate EachReadable(vs: seq<Value>) { forall k :: 0 <= k < |vs| ==> ReadableSimple(vs[k]) }

  predicate AllOfType(vs: seq<Value>, elem: Type) { forall k :: 0 <= k < |vs| ==> TypeOf(vs[k]) == elem }

  lemma EachIsSimple(vs: seq<Value>)
    requires EachReadable(vs)
    ensures AllSimple(vs)
  {
    forall k | 0 <= k < |vs| ensures !vs[k].ListValue? { assert ReadableSimple(vs[k]); }
  }

  lemma AllOfTypeFirst(vs: seq<Value>, elem: Type)
    requires vs != []
    ensures AllOfType(vs, elem) <==> TypeOf(vs[0]) == elem && AllOfType(vs[1..], elem)
  {
    if TypeOf(vs[0]) == elem && AllOfType(vs[1..], elem) {
      forall k | 0 <= k < |vs| ensures TypeOf(vs[k]) == elem { assert k > 0 ==> vs[k] == vs[1..][k - 1]; }
    }
  }

  /** The further elements are read exactly when all of them are of the type. */
  lemma {:induction false} MoreReadIff(e: Env, tt: TimeText, vs: seq<Value>, elem: Type, more: string)
    requires Faithful(e, tt) && more != "" && (more[0] == ']' || more[0] == '}') && EachReadable(vs)
    ensures AllSimple(vs)
    ensures ParseCommaValue(e, PrintMore(tt, vs) + more, elem) == if AllOfType(vs, elem) then Good(vs, more) else Bad
    decreases |vs|
  {
    EachIsSimple(vs);
    if vs == [] {
      assert PrintMore(tt, vs) + more == more;
      NotAComma(more);
    } else {
      var after := PrintMore(tt, vs[1..]) + more;
      MoreReadIff(e, tt, vs[1..], elem, more);
      MoreEnds(tt, vs[1..], more);
      OneMoreReadIff(e, tt, vs, elem, more, after);
      Separated(PrintSimple(tt, vs[0]), PrintMore(tt, vs[1..]), more);
    }
  }

  lemma OneMoreReadIff(e: Env, tt: TimeText, vs: seq<Value>, elem: Type, more: string, after: string)
    requires Faithful(e, tt) && vs != [] && EachReadable(vs) && Ends(after)
    requires ParseCommaValue(e, after, elem) == if AllOfType(vs[1..], elem) then Good(vs[1..], more) else Bad
    ensures !vs[0].ListValue?
    ensures ParseCommaValue(e, "," + (" " + (PrintSimple(tt, vs[0]) + after)), elem)
      == if AllOfType(vs, elem) then Good(vs, more) else Bad
  {
    assert ReadableSimple(vs[0]);
    SimpleValueRead(e, tt, vs[0], after);
    AfterComma(e, PrintSimple(tt, vs[0]) + after, elem, vs[0], after);
    AllOfTypeFirst(vs, elem);
    assert [vs[0]] + vs[1..] == vs;
  }

  /** What becomes of a comma and an element. */
  lemma AfterComma(e: Env, s: string, elem: Type, v: Value, after: string)
    requires ParseValue(e, s) == Good(Some(v), after)
    ensures ParseCommaValue(e, "," + (" " + s), elem) ==
      if TypeOf(v) != elem then Bad
      else
        var others := ParseCommaValue(e, after, elem);
        if others.Bad? then Bad else Good([v] + others.value, others.rest)
  {
    SpecialToken(',', " " + s);
    SpacedValue(e, s);
  }

  /**
  A printed list of simple values is read exactly when a closing bracket follows its elements and they are all of one
  type; a list with a brace in its place, or with an element of another type, is an error.
  */
  lemma ListReadIff(e: Env, tt: TimeText, vs: seq<Value>, close: char, more: string)
    requires Faithful(e, tt) && vs != [] && EachReadable(vs) && (close == ']' || close == '}')
    ensures AllSimple(vs)
    ensures ParseValue(e, ['['] + (PrintElements(tt, vs) + ([close] + more))) ==
      if close == ']' && AllOfType(vs, TypeOf(vs[0])) then Good(Some(ListValue(TypeOf(vs[0]), vs)), more) else Bad
  {
    EachIsSimple(vs);
    var tail := [close] + more;
    var after := PrintMore(tt, vs[1..]) + tail;
    assert ReadableSimple(vs[0]) && EachReadable(vs[1..]);
    MoreReadIff(e, tt, vs[1..], TypeOf(vs[0]), tail);
    MoreEnds(tt, vs[1..], tail);
    SimpleValueRead(e, tt, vs[0], after);
    SimpleStarts(tt, vs[0], after);
    AllOfTypeFirst(vs, TypeOf(vs[0]));
    FirstOrNone(e, PrintSimple(tt, vs[0]) + after, vs[0], after);
    RestReadIff(e, vs, after, close, more);
    Grouped(PrintSimple(tt, vs[0]), PrintMore(tt, vs[1..]), tail);
  }

  lemma Grouped(a: string, b: string, c: string)
    ensures (a + b) + c == a + (b + c)
  {
  }

  lemma FirstOrNone(e: Env, inside: string, v: Value, after: string)
    requires inside != "" && !IsSpace(inside[0]) && NextToken(inside).text != "]"
    requires ParseValue(e, inside) == Good(Some(v), after)
    ensures ParseValue(e, ['['] + inside) == RestOfArray(e, v, after)
  {
    SpecialToken('[', inside);
    assert PushBack(NextToken(['['] + inside)) == ['['] + inside;
    assert PushBack(NextToken(inside)) == inside;
  }

  lemma RestReadIff(e: Env, vs: seq<Value>, after: string, close: char, more: string)
    requires vs != [] && (close == ']' || close == '}')
    requires ParseCommaValue(e, after, TypeOf(vs[0]))
      == if AllOfType(vs[1..], TypeOf(vs[0])) then Good(vs[1..], [close] + more) else Bad
    ensures RestOfArray(e, vs[0], after) ==
      if close == ']' && AllOfType(vs[1..], TypeOf(vs[0])) then Good(Some(ListValue(TypeOf(vs[0]), vs)), more) else Bad
  {
    SpecialToken(close, more);
    assert [vs[0]] + vs[1..] == vs;
  }

  lemma ValueRead(e: Env, tt: TimeText, v: Value, more: string)
    requires Faithful(e, tt) && Readable(v) && Ends(more)
    ensures v.ListValue? ==> AllSimple(v.elements)
    ensures ParseValue(e, PrintValue(tt, v) + more) == Good(Some(v), more)
  {
    if v.ListValue? {
      ListRead(e, tt, v.elem, v.elements, more);
    } else {
      SimpleValueRead(e, tt, v, more);
    }
  }

  // ----- Fields and objects -----

  lemma ReadableIsFlat(fs: seq<Field>)
    requires AllReadable(fs)
    ensures AllFlat(fs)
  {
    forall k | 0 <= k < |fs| ensures Flat(fs[k]) { assert ReadableField(fs[k]); }
  }

  /** A name in quotes, a colon, and a value. */
  lemma NamedValue(e: Env, name: string, s: string, v: Value, more: string)
    requires name != "" && QUOTE !in name && ParseValue(e, s) == Good(Some(v), more)
    ensures ParseField(e, Key(name) + s) == Good(Some(v), more)
  {
    KeyParts(name, s);
    QuoteFirst(name, ": " + s);
    AfterName(e, name, s, v, more);
  }

  lemma KeyParts(name: string, s: string)
    ensures Key(name) + s == Quoted(name) + (": " + s)
  {
  }

  lemma AfterName(e: Env, name: string, s: string, v: Value, more: string)
    requires name != "" && QUOTE !in name && ParseValue(e, s) == Good(Some(v), more)
    ensures FieldAfterQuote(e, name + [QUOTE] + (": " + s)) == Good(Some(v), more)
  {
    NameRead(name, s);
    SpacedValue(e, s);
  }

  lemma NameRead(name: string, s: string)
    requires name != "" && QUOTE !in name
    ensures NameAndColon(name + [QUOTE] + (": " + s)) == Good(name, " " + s)
  {
    var r := name + [QUOTE] + (": " + s);
    IndexSkips(name, QUOTE, ": " + s);
    assert r[..|name|] == name && r[|name|..] == [QUOTE] + (": " + s);
    SpecialToken(QUOTE, ": " + s);
    assert ": " + s == [':'] + (" " + s);
    SpecialToken(':', " " + s);
  }

  lemma FieldRead(e: Env, tt: TimeText, f: Field, more: string)
    requires Faithful(e, tt) && ReadableField(f) && Ends(more)
    ensures Flat(f) && ParseField(e, PrintField(tt, f) + more) == Good(Some(f.value), more)
  {
    ValueRead(e, tt, f.value, more);
    NamedValue(e, f.name, PrintValue(tt, f.value) + more, f.value, more);
    assert PrintField(tt, f) + more == Key(f.name) + (PrintValue(tt, f.value) + more);
  }

  /** The values of the fields, as the reader returns them. */
  function ValuesOf(fs: seq<Field>): (vs: seq<MaybeValue>)
    ensures |vs| == |fs| && forall k :: 0 <= k < |fs| ==> vs[k] == Some(fs[k].value)
  {
    seq(|fs|, k requires 0 <= k < |fs| => Some(fs[k].value))
  }

  lemma ValuesOfFirst(fs: seq<Field>)
    requires fs != []
    ensures ValuesOf(fs) == [Some(fs[0].value)] + ValuesOf(fs[1..])
  {
  }

  lemma MoreFieldsEnd(tt: TimeText, fs: seq<Field>, more: string)
    requires AllFlat(fs) && Ends(more)
    ensures Ends(PrintMoreFields(tt, fs) + more)
  {
    if fs == [] { assert PrintMoreFields(tt, fs) + more == more; } else { assert PrintMoreFields(tt, fs)[0] == ','; }
  }

  lemma OneMoreField(e: Env, s: string, v: Value, vs: seq<MaybeValue>, more: string, after: string)
    requires ParseField(e, s) == Good(Some(v), after) && ParseCommaField(e, after) == Good(vs, more)
    ensures ParseCommaField(e, "," + (" " + s)) == Good([Some(v)] + vs, more)
  {
    SpecialToken(',', " " + s);
    SpaceSkipped(s);
    assert ParseField(e, " " + s) == ParseField(e, s);
  }

  lemma OneMoreFieldRead(e: Env, tt: TimeText, fs: seq<Field>, more: string, after: string)
    requires Faithful(e, tt) && fs != [] && ReadableField(fs[0]) && Ends(after)
    requires ParseCommaField(e, after) == Good(ValuesOf(fs[1..]), more)
    ensures Flat(fs[0]) && ParseCommaField(e, "," + (" " + (PrintField(tt, fs[0]) + after))) == Good(ValuesOf(fs), more)
  {
    FieldRead(e, tt, fs[0], after);
    OneMoreField(e, PrintField(tt, fs[0]) + after, fs[0].value, ValuesOf(fs[1..]), more, after);
    ValuesOfFirst(fs);
  }

  /**
  For every non-empty list of named fields that hold integers, plain strings, booleans, times or flat lists of one of
  these, the reader returns exactly the values, in order, and stops behind the closing brace.
  */
  lemma ObjectRead(e: Env, tt: TimeText, fs: seq<Field>, rest: string)
    requires Faithful(e, tt) && AllReadable(fs) && fs != []
    ensures AllFlat(fs)
    ensures ParseObject(e, "{" + PrintFields(tt, fs) + "}" + rest) == Good(Some(ValuesOf(fs)), rest)
  {
    ReadableIsFlat(fs);
    assert AllReadable(fs[1..]);
    MoreFieldsRead(e, tt, fs[1..], "}" + rest);
    MoreFieldsEnd(tt, fs[1..], "}" + rest);
    FirstFieldRead(e, tt, fs, PrintMoreFields(tt, fs[1..]) + ("}" + rest), rest);
    Braced(PrintField(tt, fs[0]), PrintMoreFields(tt, fs[1..]), rest);
  }

  lemma FirstFieldRead(e: Env, tt: TimeText, fs: seq<Field>, after: string, rest: string)
    requires Faithful(e, tt) && fs != [] && ReadableField(fs[0]) && Ends(after)
    requires ParseCommaField(e, after) == Good(ValuesOf(fs[1..]), "}" + rest)
    ensures Flat(fs[0]) && ParseObject(e, ['{'] + (PrintField(tt, fs[0]) + after)) == Good(Some(ValuesOf(fs)), rest)
  {
    FieldRead(e, tt, fs[0], after);
    Braces(e, PrintField(tt, fs[0]) + after, fs[0].value, ValuesOf(fs[1..]), after, rest);
    ValuesOfFirst(fs);
  }

  lemma Braced(a: string, b: string, c: string)
    ensures (("{" + (a + b)) + "}") + c == ['{'] + (a + (b + ("}" + c)))
  {
  }

  lemma Braces(e: Env, inside: string, v: Value, vs: seq<MaybeValue>, after: string, rest: string)
    requires ParseField(e, inside) == Good(Some(v), after) && ParseCommaField(e, after) == Good(vs, "}" + rest)
    ensures ParseObject(e, ['{'] + inside) == Good(Some([Some(v)] + vs), rest)
  {
    SpecialToken('{', inside);
    SpecialToken('}', rest);
  }

  // ----- Objects that are not read -----

  lemma {:induction false} MoreFieldsRead(e: Env, tt: TimeText, fs: seq<Field>, more: string)
    requires Faithful(e, tt) && AllReadable(fs) && more != "" && (more[0] == '}' || more[0] == ']')
    ensures AllFlat(fs) && ParseCommaField(e, PrintMoreFields(tt, fs) + more) == Good(ValuesOf(fs), more)
    decreases |fs|
  {
    ReadableIsFlat(fs);
    if fs == [] {
      assert PrintMoreFields(tt, fs) + more == more;
      NotAComma(more);
    } else {
      var after := PrintMoreFields(tt, fs[1..]) + more;
      assert AllReadable(fs[1..]);
      MoreFieldsRead(e, tt, fs[1..], more);
      MoreFieldsEnd(tt, fs[1..], more);
      OneMoreFieldRead(e, tt, fs, more, after);
      Separated(PrintField(tt, fs[0]), PrintMoreFields(tt, fs[1..]), more);
    }
  }

  /** A printed object is read exactly when a brace closes it. */
  lemma ObjectReadIff(e: Env, tt: TimeText, fs: seq<Field>, close: char, rest: string)
    requires Faithful(e, tt) && AllReadable(fs) && fs != [] && (close == '}' || close == ']')
    ensures AllFlat(fs)
    ensures ParseObject(e, ['{'] + (PrintFields(tt, fs) + ([close] + rest)))
      == if close == '}' then Good(Some(ValuesOf(fs)), rest) else Bad
  {
    ReadableIsFlat(fs);
    assert AllReadable(fs[1..]) && ReadableField(fs[0]);
    var tail := [close] + rest;
    var after := PrintMoreFields(tt, fs[1..]) + tail;
    MoreFieldsRead(e, tt, fs[1..], tail);
    MoreFieldsEnd(tt, fs[1..], tail);
    FieldRead(e, tt, fs[0], after);
    ClosedIff(e, PrintField(tt, fs[0]) + after, fs[0].value, ValuesOf(fs[1..]), after, close, rest);
    ValuesOfFirst(fs);
    Grouped(PrintField(tt, fs[0]), PrintMoreFields(tt, fs[1..]), tail);
  }

  lemma ClosedIff(e: Env, inside: string, v: Value, vs: seq<MaybeValue>, after: string, close: char, rest: string)
    requires ParseField(e, inside) == Good(Some(v), after) && ParseCommaField(e, after) == Good(vs, [close] + rest)
    requires close == '}' || close == ']'
    ensures ParseObject(e, ['{'] + inside) == if close == '}' then Good(Some([Some(v)] + vs), rest) else Bad
  {
    SpecialToken('{', inside);
    SpecialToken(close, rest);
  }
}
