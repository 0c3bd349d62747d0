/**
Replies of the Redis serialization protocol (RESP, version 2): the encoding a server sends, and the recursive reader
of the client, first as a function of the bytes received and then as the method that consumes a connection's reader.
*/
module Replies {
  import opened Basics
  import opened Decimal

  newtype byte = x: int | 0 <= x < 256

  type bytes = seq<byte>

  const CR: byte := 13
  const LF: byte := 10
  const CRLF: bytes := [CR, LF]
  const MINUS: byte := 45
  const PLUS: byte := 43
  const COLON: byte := 58
  const DOLLAR: byte := 36
  const STAR: byte := 42

  /** Text with one byte per character. */
  predicate Latin(s: string) { forall i :: 0 <= i < |s| ==> s[i] as int < 256 }

  function Bytes(s: string): (b: bytes)
    requires Latin(s)
    ensures |b| == |s| && forall i :: 0 <= i < |s| ==> b[i] as int == s[i] as int
  {
    seq(|s|, i requires 0 <= i < |s| => s[i] as int as byte)
  }

  function Chars(b: bytes): (s: string)
    ensures |s| == |b| && forall i :: 0 <= i < |b| ==> s[i] as int == b[i] as int
  {
    seq(|b|, i requires 0 <= i < |b| => b[i] as int as char)
  }

  lemma CharsOfBytes(s: string)
    requires Latin(s)
    ensures Chars(Bytes(s)) == s
  {
  }

  lemma TextIsLatin(i: int)
    ensures Latin(Text(i)) && forall k :: 0 <= k < |Text(i)| ==> Text(i)[k] == '-' || IsDigit(Text(i)[k])
  {
    if i < 0 {
      forall k | 0 <= k < |Text(i)| ensures Text(i)[k] == '-' || IsDigit(Text(i)[k]) {
        if k > 0 { assert Text(i)[k] == Digits(-i)[k - 1]; }
      }
    }
  }

  /** strconv.AppendInt, base 10 */
  function IntBytes(i: int): (b: bytes)
    ensures |b| == |Text(i)|
    ensures LF !in b
  {
    TextIsLatin(i);
    Bytes(Text(i))
  }

  /** strconv.ParseInt and Atoi on the bytes of a string */
  function ParseBytes(b: bytes): Option<int> { ParseInt(Chars(b)) }

  lemma ParseIntBytes(i: int)
    requires InInt64(i)
    ensures ParseBytes(IntBytes(i)) == Some(i)
  {
    TextIsLatin(i);
    CharsOfBytes(Text(i));
    ParseIntOfText(i);
  }

  // ----- Replies and their encoding -----

  /** The null bulk and the null array (nil slices in the program) are different from empty ones. */
  datatype Reply =
    | ErrorReply(error: bytes)
    | StatusReply(status: bytes)
    | IntegerReply(integer: int)
    | BulkReply(bulk: bytes)
    | NullBulk
    | MultiReply(multi: seq<Reply>)
    | NullMulti

  /** What a server sends for a reply. */
  function Encode(r: Reply): bytes {
    match r
    case ErrorReply(e) => [MINUS] + e + CRLF
    case StatusReply(s) => [PLUS] + s + CRLF
    case IntegerReply(i) => [COLON] + IntBytes(i) + CRLF
    case NullBulk => [DOLLAR] + IntBytes(-1) + CRLF
    case BulkReply(b) => [DOLLAR] + IntBytes(|b|) + CRLF + (b + CRLF)
    case NullMulti => [STAR] + IntBytes(-1) + CRLF
    case MultiReply(rs) => [STAR] + IntBytes(|rs|) + CRLF + EncodeAll(rs)
  }

  function EncodeAll(rs: seq<Reply>): bytes {
    if rs == [] then [] else Encode(rs[0]) + EncodeAll(rs[1..])
  }

  /** A reply a server can send: no line feed inside a line, and numbers and sizes of 64 bits. */
  predicate Sendable(r: Reply) {
    match r
    case ErrorReply(e) => LF !in e
    case StatusReply(s) => LF !in s
    case IntegerReply(i) => InInt64(i)
    case BulkReply(b) => |b| + 2 <= INT64_MAX
    case MultiReply(rs) => |rs| <= INT64_MAX && AllSendable(rs)
    case _ => true
  }

  predicate AllSendable(rs: seq<Reply>) {
    rs == [] || (Sendable(rs[0]) && AllSendable(rs[1..]))
  }

  // ----- The reader as a function -----

  /** The position of the first line feed, or the length. */
  function FindLF(b: bytes): (n: nat)
    ensures n <= |b| && (n < |b| ==> b[n] == LF)
  {
    if b == [] || b[0] == LF then 0 else 1 + FindLF(b[1..])
  }

  /** Reader.ReadBytes('\n'): the bytes up to and including the first line feed, and the bytes after it. */
  function ReadLine(b: bytes): (o: Option<(bytes, bytes)>)
    ensures o.Some? ==> |o.value.0| > 0 && |o.value.0| + |o.value.1| == |b|
  {
    var n := FindLF(b);
    if n == |b| then None else Some((b[..n + 1], b[n + 1..]))
  }

  /** A value and the bytes left after it. */
  type Taken<T> = Option<(T, bytes)>

  /** ReadBulk: the two bytes after the content are read and not looked at. */
  function TakeBulk(b: bytes, size: int): (o: Taken<Option<bytes>>)
    ensures o.Some? ==> |o.value.1| <= |b|
  {
    if size < 0 then Some((None, b))
    else if |b| < size + 2 then None
    else Some((Some(b[..size]), b[size + 2..]))
  }

  function Bulk(bulk: Option<bytes>): Reply {
    match bulk
    case None => NullBulk
    case Some(b) => BulkReply(b)
  }

  /** The type byte and the text of the next line. A line of fewer than three bytes has no room for a type byte. */
  function Header(b: bytes): (o: Taken<(byte, bytes)>)
    ensures o.Some? ==> |o.value.1| + 3 <= |b|
  {
    var l := ReadLine(b);
    if l.None? || |l.value.0| < 3 then None
    else Some(((l.value.0[0], l.value.0[1..|l.value.0| - 2]), l.value.1))
  }

  /** RecvReply. None is an error return, or the run-time error of a line that is too short. */
  function Recv(b: bytes): (o: Taken<Reply>)
    ensures o.Some? ==> |o.value.1| + 3 <= |b|
    decreases |b|, 0, 0
  {
    match Header(b)
    case None => None
    case Some(((tag, text), rest)) => RecvBody(tag, text, rest)
  }

  /** What RecvReply does with a line and the bytes after it. */
  function RecvBody(tag: byte, text: bytes, rest: bytes): (o: Taken<Reply>)
    ensures o.Some? ==> |o.value.1| <= |rest|
    decreases |rest|, 1, 0
  {
    if tag == MINUS then Some((ErrorReply(text), rest))
    else if tag == PLUS then Some((StatusReply(text), rest))
    else if tag == COLON then
      match ParseBytes(text)
      case None => None
      case Some(i) => Some((IntegerReply(i), rest))
    else if tag == DOLLAR then
      match ParseBytes(text)
      case None => None
      case Some(size) => BulkOf(TakeBulk(rest, size))
    else if tag == STAR then
      match ParseBytes(text)
      case None => None
      case Some(n) => if n < 0 then Some((NullMulti, rest)) else MultiOf(RecvAll(rest, n))
    else None
  }

  function BulkOf(o: Taken<Option<bytes>>): Taken<Reply> {
    if o.None? then None else Some((Bulk(o.value.0), o.value.1))
  }

  function MultiOf(o: Taken<seq<Reply>>): Taken<Reply> {
    if o.None? then None else Some((MultiReply(o.value.0), o.value.1))
  }

  /** The loop that reads the elements of an array. */
  function RecvAll(b: bytes, n: nat): (o: Taken<seq<Reply>>)
    ensures o.Some? ==> |o.value.1| <= |b| && |o.value.0| == n
    decreases |b|, 0, n + 1
  {
    if n == 0 then Some(([], b))
    else
      var first := Recv(b);
      if first.None? then None
      else
        var others := RecvAll(first.value.1, n - 1);
        if others.None? then None else Some(([first.value.0] + others.value.0, others.value.1))
  }

  // ----- Reading undoes encoding -----

  lemma {:induction false} FindLFSkips(a: bytes, b: bytes)
    requires LF !in a
    ensures FindLF(a + [LF] + b) == |a|
  {
    if a != [] {
      assert (a + [LF] + b)[0] == a[0] && (a + [LF] + b)[1..] == a[1..] + [LF] + b;
      FindLFSkips(a[1..], b);
    }
  }

  /** A line of the protocol: the type byte, the text, and the end of the line. */
  lemma ReadOneLine(tag: byte, text: bytes, rest: bytes)
    requires LF !in text && tag != LF
    ensures ReadLine([tag] + text + CRLF + rest) == Some(([tag] + text + CRLF, rest))
  {
    var a := [tag] + text + [CR];
    assert [tag] + text + CRLF + rest == a + [LF] + rest;
    FindLFSkips(a, rest);
  }

  /** What the reader makes of a line. */
  lemma RecvLine(tag: byte, text: bytes, rest: bytes)
    requires LF !in text && tag != LF
    ensures Header([tag] + text + CRLF + rest) == Some(((tag, text), rest))
    ensures Recv([tag] + text + CRLF + rest) == RecvBody(tag, text, rest)
  {
    ReadOneLine(tag, text, rest);
    assert ([tag] + text + CRLF)[1..|text| + 1] == text;
  }

  lemma RecvBulk(b: bytes, rest: bytes)
    requires |b| <= INT64_MAX
    ensures Recv([DOLLAR] + IntBytes(|b|) + CRLF + (b + CRLF) + rest) == Some((BulkReply(b), rest))
  {
    var tail := b + CRLF + rest;
    assert [DOLLAR] + IntBytes(|b|) + CRLF + (b + CRLF) + rest == [DOLLAR] + IntBytes(|b|) + CRLF + tail;
    RecvLine(DOLLAR, IntBytes(|b|), tail);
    ParseIntBytes(|b|);
    assert tail[..|b|] == b && tail[|b| + 2..] == rest;
  }

  /** RecvReply reads back exactly the reply that was sent, and leaves exactly the bytes that follow it. */
  lemma {:induction false} RecvEncode(r: Reply, rest: bytes)
    requires Sendable(r)
    ensures Recv(Encode(r) + rest) == Some((r, rest))
    decreases r, 0
  {
    match r
    case ErrorReply(e) => RecvError(e, rest);
    case StatusReply(s) => RecvStatus(s, rest);
    case IntegerReply(i) => RecvInteger(i, rest);
    case NullBulk => RecvNullBulk(rest);
    case BulkReply(b) => RecvBulk(b, rest);
    case NullMulti => RecvNullMulti(rest);
    case MultiReply(rs) =>
      RecvEncodeAll(rs, rest);
      RecvArray(rs, EncodeAll(rs), rest);
  }

  lemma RecvError(e: bytes, rest: bytes)
    requires LF !in e
    ensures Recv([MINUS] + e + CRLF + rest) == Some((ErrorReply(e), rest))
  {
    RecvLine(MINUS, e, rest);
  }

  lemma RecvStatus(s: bytes, rest: bytes)
    requires LF !in s
    ensures Recv([PLUS] + s + CRLF + rest) == Some((StatusReply(s), rest))
  {
    RecvLine(PLUS, s, rest);
  }

  lemma RecvInteger(i: int, rest: bytes)
    requires InInt64(i)
    ensures Recv([COLON] + IntBytes(i) + CRLF + rest) == Some((IntegerReply(i), rest))
  {
    RecvLine(COLON, IntBytes(i), rest);
    ParseIntBytes(i);
  }

  lemma RecvNullBulk(rest: bytes)
    ensures Recv([DOLLAR] + IntBytes(-1) + CRLF + rest) == Some((NullBulk, rest))
  {
    RecvLine(DOLLAR, IntBytes(-1), rest);
    ParseIntBytes(-1);
  }

  lemma RecvNullMulti(rest: bytes)
    ensures Recv([STAR] + IntBytes(-1) + CRLF + rest) == Some((NullMulti, rest))
  {
    RecvLine(STAR, IntBytes(-1), rest);
    ParseIntBytes(-1);
  }

  lemma RecvArrayHeader(n: nat, tail: bytes)
    requires n <= INT64_MAX
    ensures Recv([STAR] + IntBytes(n) + CRLF + tail) == MultiOf(RecvAll(tail, n))
  {
    RecvLine(STAR, IntBytes(n), tail);
    ParseIntBytes(n);
    BodyOfArray(IntBytes(n), n, tail);
  }

  lemma BodyOfArray(text: bytes, n: nat, tail: bytes)
    requires ParseBytes(text) == Some(n)
    ensures RecvBody(STAR, text, tail) == MultiOf(RecvAll(tail, n))
  {
  }

  lemma RecvArray(rs: seq<Reply>, body: bytes, rest: bytes)
    requires |rs| <= INT64_MAX && RecvAll(body + rest, |rs|) == Some((rs, rest))
    ensures Recv([STAR] + IntBytes(|rs|) + CRLF + body + rest) == Some((MultiReply(rs), rest))
  {
    assert [STAR] + IntBytes(|rs|) + CRLF + body + rest == [STAR] + IntBytes(|rs|) + CRLF + (body + rest);
    RecvArrayHeader(|rs|, body + rest);
  }

  lemma {:induction false} RecvEncodeAll(rs: seq<Reply>, rest: bytes)
    requires AllSendable(rs)
    ensures RecvAll(EncodeAll(rs) + rest, |rs|) == Some((rs, rest))
    decreases rs, 1
  {
    if rs == [] {
      assert EncodeAll(rs) + rest == rest;
    } else {
      assert EncodeAll(rs) + rest == Encode(rs[0]) + (EncodeAll(rs[1..]) + rest);
      RecvEncode(rs[0], EncodeAll(rs[1..]) + rest);
      RecvEncodeAll(rs[1..], rest);
      assert [rs[0]] + rs[1..] == rs;
    }
  }

  /** So no two replies, whatever follows them, look the same on the wire. */
  lemma EncodeUnique(a: Reply, b: Reply, x: bytes, y: bytes)
    requires Sendable(a) && Sendable(b) && Encode(a) + x == Encode(b) + y
    ensures a == b && x == y
  {
    RecvEncode(a, x);
    RecvEncode(b, y);
  }

  // ----- The characters of the protocol -----

  lemma CharsConcat(a: bytes, b: bytes)
    ensures Chars(a + b) == Chars(a) + Chars(b)
  {
  }

  lemma CharsOfInt(i: int)
    ensures Chars(IntBytes(i)) == Text(i)
  {
    TextIsLatin(i);
    CharsOfBytes(Text(i));
  }

  /** A line of the protocol as text. */
  lemma LineText(tag: byte, text: bytes)
    ensures Chars([tag] + text + CRLF) == [tag as int as char] + Chars(text) + "\r\n"
  {
  }

  /** The encoding of each form of reply, in the characters of the protocol. */
  lemma WireFormat(r: Reply)
    ensures var wire := Chars(Encode(r));
      match r
      case ErrorReply(e) => wire == "-" + Chars(e) + "\r\n"
      case StatusReply(s) => wire == "+" + Chars(s) + "\r\n"
      case IntegerReply(i) => wire == ":" + Text(i) + "\r\n"
      case NullBulk => wire == "$-1\r\n"
      case BulkReply(b) => wire == "$" + Text(|b|) + "\r\n" + (Chars(b) + "\r\n")
      case NullMulti => wire == "*-1\r\n"
      case MultiReply(rs) => wire == "*" + Text(|rs|) + "\r\n" + Chars(EncodeAll(rs))
  {
    match r
    case ErrorReply(e) => LineText(MINUS, e);
    case StatusReply(s) => LineText(PLUS, s);
    case IntegerReply(i) => NumberLine(COLON, i);
    case NullBulk => NumberLine(DOLLAR, -1); NullText();
    case BulkReply(b) => NumberLine(DOLLAR, |b|); CharsConcat([DOLLAR] + IntBytes(|b|) + CRLF, b + CRLF); CharsConcat(b, CRLF);
    case NullMulti => NumberLine(STAR, -1); NullText();
    case MultiReply(rs) => NumberLine(STAR, |rs|); CharsConcat([STAR] + IntBytes(|rs|) + CRLF, EncodeAll(rs));
  }

  lemma NumberLine(tag: byte, i: int)
    ensures Chars([tag] + IntBytes(i) + CRLF) == [tag as int as char] + Text(i) + "\r\n"
  {
    CharsOfInt(i);
    LineText(tag, IntBytes(i));
  }

  lemma NullText()
    ensures Text(-1) == "-1"
  {
  }

  /**
  What RecvReply makes of a line with any two bytes at its end: it looks at the first character, and an array goes on
  with as many replies as the number says.
  */
  lemma RecvByCharacter(tag: byte, text: bytes, end: byte, rest: bytes)
    requires LF !in text && tag != LF && end != LF
    ensures var o := Recv([tag] + text + [end, LF] + rest); var n := ParseBytes(text);
      match tag as int as char
      case '-' => o == Some((ErrorReply(text), rest))
      case '+' => o == Some((StatusReply(text), rest))
      case ':' => o == if n.None? then None else Some((IntegerReply(n.value), rest))
      case '$' =>
        o == if n.None? then None
             else if n.value < 0 then Some((NullBulk, rest))
             else if |rest| < n.value + 2 then None
             else Some((BulkReply(rest[..n.value]), rest[n.value + 2..]))
      case '*' =>
        o == if n.None? then None else if n.value < 0 then Some((NullMulti, rest)) else MultiOf(RecvAll(rest, n.value))
      case _ => o == None
  {
    AnyLine(tag, text, end, rest);
  }

  lemma AnyLine(tag: byte, text: bytes, end: byte, rest: bytes)
    requires LF !in text && tag != LF && end != LF
    ensures Recv([tag] + text + [end, LF] + rest) == RecvBody(tag, text, rest)
  {
    var a := [tag] + text + [end];
    assert [tag] + text + [end, LF] + rest == a + [LF] + rest;
    FindLFSkips(a, rest);
    assert (a + [LF])[1..|a| - 1] == text;
  }

  /** Without a line feed, and with a line too short for a character and an end, there is no reply. */
  lemma NoLine(line: bytes, rest: bytes)
    requires LF !in line && |line| < 2
    ensures Recv(line + [LF] + rest) == None
    ensures LF !in rest ==> Recv(rest) == None
  {
    FindLFSkips(line, rest);
    if LF !in rest { NoFeed(rest); }
  }

  lemma {:induction false} NoFeed(b: bytes)
    requires LF !in b
    ensures FindLF(b) == |b|
  {
    if b != [] { NoFeed(b[1..]); }
  }

  // ----- The reader of a connection -----

  /** The loop of RecvReply over the elements, with the elements read so far. */
  function RecvMore(done: seq<Reply>, b: bytes, n: nat): Taken<seq<Reply>>
    decreases n
  {
    if n == 0 then Some((done, b))
    else
      match Recv(b)
      case None => None
      case Some((r, rest)) => RecvMore(done + [r], rest, n - 1)
  }

  lemma {:induction false} RecvMoreIsRecvAll(done: seq<Reply>, b: bytes, n: nat)
    ensures RecvMore(done, b, n) == var all := RecvAll(b, n); if all.None? then None else Some((done + all.value.0, all.value.1))
    decreases n
  {
    if n > 0 {
      var first := Recv(b);
      if first.Some? {
        var (r, rest) := first.value;
        RecvMoreIsRecvAll(done + [r], rest, n - 1);
        var others := RecvAll(rest, n - 1);
        if others.Some? { assert done + [r] + others.value.0 == done + ([r] + others.value.0); }
      }
    } else {
      assert done + [] == done;
    }
  }

  lemma RecvMoreFromNone(b: bytes, n: nat)
    ensures RecvMore([], b, n) == RecvAll(b, n)
  {
    RecvMoreIsRecvAll([], b, n);
    var all := RecvAll(b, n);
    if all.Some? { assert [] + all.value.0 == all.value.0; }
  }

  class Reader {
    var unread: bytes

    constructor (unread: bytes)
      ensures this.unread == unread
    {
      this.unread := unread;
    }

    /** Consumes a line with its line feed; without a line feed everything is consumed. */
    method ReadBytes() returns (r: Option<bytes>)
      modifies this
      ensures match ReadLine(old(unread))
              case Some((line, rest)) => r == Some(line) && unread == rest
              case None => r.None?
      ensures |unread| <= |old(unread)|
    {
      var n := FindLF(unread);
      if n == |unread| {
        unread := [];
        return None;
      }
      r := Some(unread[..n + 1]);
      unread := unread[n + 1..];
    }

    method ReadBulk(size: int) returns (r: Option<Option<bytes>>)
      modifies this
      ensures match TakeBulk(old(unread), size)
              case Some((bulk, rest)) => r == Some(bulk) && unread == rest
              case None => r.None?
      ensures |unread| <= |old(unread)|
    {
      if size < 0 { return Some(None); }
      if |unread| < size + 2 {
        unread := [];
        return None;
      }
      r := Some(Some(unread[..size]));
      unread := unread[size + 2..];
    }

    /** RecvReply, consuming the reader. */
    method RecvReply() returns (r: Option<Reply>)
      modifies this
      ensures match Recv(old(unread))
              case Some((reply, rest)) => r == Some(reply) && unread == rest
              case None => r.None?
      ensures |unread| <= |old(unread)|
      decreases |unread|, 0
    {
      var l := ReadBytes();
      if l.None? || |l.value| < 3 { return None; }
      var line := l.value;
      var text := line[1..|line| - 2];
      assert Recv(old(unread)) == RecvBody(line[0], text, unread);
      if line[0] == MINUS { return Some(ErrorReply(text)); }
      if line[0] == PLUS { return Some(StatusReply(text)); }
      if line[0] == COLON {
        var i := ParseBytes(text);
        return if i.None? then None else Some(IntegerReply(i.value));
      }
      if line[0] == DOLLAR {
        var size := ParseBytes(text);
        if size.None? { return None; }
        var bulk := ReadBulk(size.value);
        return if bulk.None? then None else Some(Bulk(bulk.value));
      }
      if line[0] == STAR {
        var n := ParseBytes(text);
        if n.None? { return None; }
        if n.value < 0 { return Some(NullMulti); }
        var multi := RecvElements(n.value);
        return if multi.None? then None else Some(MultiReply(multi.value));
      }
      r := None;
    }

    /** The loop that fills the slice of an array reply. */
    method RecvElements(n: nat) returns (r: Option<seq<Reply>>)
      modifies this
      ensures match RecvAll(old(unread), n)
              case Some((replies, rest)) => r == Some(replies) && unread == rest
              case None => r.None?
      ensures |unread| <= |old(unread)|
      decreases |unread|, n + 1
    {
      var multi: seq<Reply> := [];
      ghost var whole := RecvMore([], unread, n);
      RecvMoreFromNone(unread, n);
      var j := 0;
      while j < n
        invariant 0 <= j <= n && |multi| == j
        invariant |unread| <= |old(unread)|
        invariant whole == RecvMore(multi, unread, n - j)
        decreases n - j
      {
        var rp := RecvReply();
        if rp.None? { return None; }
        multi := multi + [rp.value];
        j := j + 1;
      }
      r := Some(multi);
    }
  }
}
