/**
Redis commands: the writer that predicts the length of each number before it prints it, the flattening of argument
lists, and the reading of a list of bulks back into a map.
*/
module Commands {
  import opened Basics
  import opened Decimal
  import opened Replies

  // ----- numLen -----

  const LIMIT: int := 1_000_000_000_000_000_000

  /** The loop of numLen has ended after as many turns, or never ends (NumLenDecided). */
  const TURNS: nat := 64

  /** An int64 after a computation that may have overflowed. */
  function Wrap(i: int): (r: int)
    ensures InInt64(r) && (InInt64(i) ==> r == i)
  {
    (i - INT64_MIN) % 0x1_0000_0000_0000_0000 + INT64_MIN
  }

  /** The loop of numLen on 64-bit integers, for at most the given number of turns. */
  function NumLenLoop(i: int, n: int, pos10: int, turns: nat): Option<int>
    decreases turns
  {
    if i < pos10 then Some(n)
    else if turns == 0 then None
    else NumLenLoop(i, n + 1, Wrap(pos10 * 10), turns - 1)
  }

  /** numLen, in 64-bit arithmetic: None when the loop has not ended after the given number of turns. */
  function NumLen(i: int, turns: nat): Option<int> {
    if i < 0 then NumLenLoop(Wrap(-i), 2, 10, turns) else NumLenLoop(i, 1, 10, turns)
  }

  function Pow10(n: nat): (p: nat)
    ensures p >= 1
  {
    if n == 0 then 1 else 10 * Pow10(n - 1)
  }

  /** A number has n digits when it is below the n-th power of ten and not below the one before. */
  lemma {:induction false} DigitsLength(i: nat, n: nat)
    requires n >= 1 && i < Pow10(n) && (n > 1 ==> Pow10(n - 1) <= i)
    ensures |Digits(i)| == n
    decreases n
  {
    if n > 1 {
      assert Pow10(n) == 10 * Pow10(n - 1);
      assert i >= 10 by { if n > 2 { assert Pow10(n - 1) == 10 * Pow10(n - 2); } else { assert Pow10(1) == 10 * Pow10(0); } }
      if n > 2 { assert Pow10(n - 1) == 10 * Pow10(n - 2); }
      DigitsLength(i / 10, n - 1);
    } else {
      assert Pow10(1) == 10 * Pow10(0);
    }
  }

  lemma {:induction false} Pow10Grows(m: nat, n: nat)
    requires m <= n
    ensures Pow10(m) <= Pow10(n)
    decreases n - m
  {
    if m < n {
      assert Pow10(m + 1) == 10 * Pow10(m);
      Pow10Grows(m + 1, n);
    }
  }

  lemma Pow10Of18()
    ensures Pow10(18) == LIMIT
  {
    assert Pow10(3) == 1000;
    assert Pow10(6) == 1_000_000;
    assert Pow10(9) == 1_000_000_000;
    assert Pow10(12) == 1_000_000_000_000;
    assert Pow10(15) == 1_000_000_000_000_000;
  }

  /** A turn in which the power of ten does not overflow. */
  lemma PlainTurn(i: int, n: int, pos10: int, turns: nat)
    requires i >= pos10 && turns > 0 && InInt64(pos10 * 10)
    ensures NumLenLoop(i, n, pos10, turns) == NumLenLoop(i, n + 1, pos10 * 10, turns - 1)
  {
    assert Wrap(pos10 * 10) == pos10 * 10;
  }

  /** A power of ten below the limit, and the next. */
  lemma NextPower(n: nat)
    requires n < 18
    ensures Pow10(n + 1) == 10 * Pow10(n) <= LIMIT
  {
    Pow10Of18();
    Pow10Grows(n + 1, 18);
  }

  /** A turn at a power of ten that is not the last that fits. */
  lemma OneTurn(i: int, len: int, n: nat, turns: nat)
    requires n < 18 && Pow10(n) <= i && turns > 0
    ensures NumLenLoop(i, len, Pow10(n), turns) == NumLenLoop(i, len + 1, Pow10(n + 1), turns - 1)
  {
    NextPower(n);
    PlainTurn(i, len, Pow10(n), turns);
  }

  /** Below the limit the loop counts the digits, and the power of ten stays within 64 bits. */
  lemma {:induction false} LoopCounts(i: nat, extra: nat, n: nat, turns: nat)
    requires 1 <= n <= 18 && i < LIMIT && (n > 1 ==> Pow10(n - 1) <= i) && turns >= 18 - n
    ensures NumLenLoop(i, extra + n, Pow10(n), turns) == Some(extra + |Digits(i)|)
    decreases 18 - n
  {
    if i < Pow10(n) {
      DigitsLength(i, n);
    } else {
      if n == 18 { Pow10Of18(); }
      OneTurn(i, extra + n, n, turns);
      LoopCounts(i, extra, n + 1, turns - 1);
    }
  }

  /** The turn that overflows: the power of ten turns negative, so one more turn follows. */
  lemma OverflowTurn(i: int, n: int, turns: nat)
    requires LIMIT <= i && turns > 0
    ensures var r := NumLenLoop(i, n, LIMIT, turns); r.Some? ==> r.value >= n + 2
  {
    assert Wrap(LIMIT * 10) == LIMIT * 10 - 0x1_0000_0000_0000_0000;
    if turns > 1 { LoopOnlyGrows(i, n + 2, Wrap(Wrap(LIMIT * 10) * 10), turns - 2); }
  }

  /** The powers of ten that the loop compares with before the overflow. */
  lemma PowerBelow(n: nat)
    requires n <= 18
    ensures Pow10(n) <= LIMIT && Pow10(18) == LIMIT
  {
    Pow10Of18();
    Pow10Grows(n, 18);
  }

  /** A loop that has no turn left and has not reached the number gives no length. */
  lemma NoTurnLeft(i: int, n: int, pos10: int)
    requires pos10 <= i
    ensures NumLenLoop(i, n, pos10, 0) == None
  {
  }

  lemma OvercountsAtLimit(i: int, extra: nat, turns: nat)
    requires LIMIT <= i
    ensures var r := NumLenLoop(i, extra + 18, LIMIT, turns); r.Some? ==> r.value >= extra + 20
  {
    if turns > 0 { OverflowTurn(i, extra + 18, turns); }
  }

  /** From the limit on, the loop counts at least one digit too many, because the power of ten overflows. */
  lemma {:induction false} LoopOvercounts(i: int, extra: nat, n: nat, turns: nat)
    requires 1 <= n <= 18 && LIMIT <= i <= INT64_MAX
    ensures var r := NumLenLoop(i, extra + n, Pow10(n), turns); r.Some? ==> r.value >= extra + 20
    decreases 18 - n
  {
    PowerBelow(n);
    if n == 18 {
      OvercountsAtLimit(i, extra, turns);
    } else if turns == 0 {
      NoTurnLeft(i, extra + n, Pow10(n));
    } else {
      LoopOvercounts(i, extra, n + 1, turns - 1);
      OneTurn(i, extra + n, n, turns);
    }
  }

  lemma {:induction false} LoopOnlyGrows(i: int, n: int, pos10: int, turns: nat)
    ensures var r := NumLenLoop(i, n, pos10, turns); r.Some? ==> n <= r.value <= n + turns
    decreases turns
  {
    if i >= pos10 && turns > 0 { LoopOnlyGrows(i, n + 1, Wrap(pos10 * 10), turns - 1); }
  }

  /** 64-bit integers have at most 19 digits. */
  lemma AtMostNineteenDigits(i: nat)
    requires i <= 0x8000_0000_0000_0000
    ensures |Digits(i)| <= 19
  {
    Pow10Of18();
    assert Pow10(19) == 10 * Pow10(18);
    FewDigits(i, 19);
  }

  lemma {:induction false} FewDigits(i: nat, n: nat)
    requires n >= 1 && i < Pow10(n)
    ensures |Digits(i)| <= n
    decreases n
  {
    assert Pow10(n) == 10 * Pow10(n - 1);
    if n == 1 {
      assert Pow10(0) == 1;
    } else if i >= 10 {
      FewDigits(i / 10, n - 1);
    }
  }

  /**
  numLen gives the length of the decimal text exactly for the integers of magnitude below 10^18: then 17 turns are
  enough, and beyond that it is wrong, or has not ended, after any number of turns.
  */
  lemma NumLenIff(i: int, turns: nat)
    requires InInt64(i) && turns >= 17
    ensures NumLen(i, turns) == Some(|Text(i)|) <==> -LIMIT < i < LIMIT
  {
    assert Pow10(1) == 10 * Pow10(0);
    if i <= -LIMIT || LIMIT <= i {
      NumLenWrong(i, turns);
    } else if i < 0 {
      LoopCounts(-i, 1, 1, turns);
    } else {
      LoopCounts(i, 0, 1, turns);
    }
  }

  /** From a magnitude of 10^18 on, the length is wrong. */
  lemma NumLenWrong(i: int, turns: nat)
    requires InInt64(i) && (i <= -LIMIT || LIMIT <= i)
    ensures NumLen(i, turns) != Some(|Text(i)|)
  {
    assert Pow10(1) == 10 * Pow10(0);
    if i == INT64_MIN {
      assert Wrap(-i) == i;
      LongText(i);
    } else {
      LoopOvercounts(if i < 0 then -i else i, if i < 0 then 1 else 0, 1, turns);
      AtMostNineteenDigits(if i < 0 then -i else i);
    }
  }

  lemma LongText(i: int)
    requires i == INT64_MIN
    ensures |Text(i)| > 2
  {
    assert |Digits(0x8000_0000_0000_0000)| == |Digits(0x8000_0000_0000_0000 / 10)| + 1;
  }

  // ----- numLen on all 64-bit integers: the power of ten becomes zero, so 64 turns decide -----

  lemma WrapPeriodic(x: int, z: int)
    ensures Wrap(x + 0x1_0000_0000_0000_0000 * z) == Wrap(x)
  {
    assert (x - INT64_MIN + 0x1_0000_0000_0000_0000 * z) % 0x1_0000_0000_0000_0000 == (x - INT64_MIN) % 0x1_0000_0000_0000_0000;
  }

  /** Overflow commutes with the multiplication. */
  lemma WrapTimesTen(x: int)
    ensures Wrap(Wrap(x) * 10) == Wrap(x * 10)
  {
    var z := (x - INT64_MIN) / 0x1_0000_0000_0000_0000;
    assert Wrap(x) == x - 0x1_0000_0000_0000_0000 * z;
    WrapPeriodic(x * 10, -10 * z);
  }

  lemma {:induction false} Pow10Adds(m: nat, n: nat)
    ensures Pow10(m + n) == Pow10(m) * Pow10(n)
    decreases n
  {
    if n > 0 {
      Pow10Adds(m, n - 1);
      assert Pow10(m) * Pow10(n) == Pow10(m) * (10 * Pow10(n - 1)) == 10 * (Pow10(m) * Pow10(n - 1));
    }
  }

  lemma Pow10Of16()
    ensures Pow10(16) == 10_000_000_000_000_000
  {
    assert Pow10(4) == 10_000;
    Pow10Adds(4, 4);
    Pow10Adds(8, 8);
  }

  lemma Pow10Of32()
    ensures Pow10(32) == 100_000_000_000_000_000_000_000_000_000_000
  {
    Pow10Of16();
    Pow10Adds(16, 16);
  }

  /** The 64th power of ten is a multiple of the 64th power of two. */
  lemma Pow10Of64()
    ensures Pow10(64) == 0x1_0000_0000_0000_0000 * 542101086242752217003726400434970855712890625
  {
    Pow10Of32();
    Pow10Adds(32, 32);
  }

  lemma Pow10WrapsToZero()
    ensures Wrap(Pow10(64)) == 0
  {
    Pow10Of64();
    WrapPeriodic(0, 542101086242752217003726400434970855712890625);
  }

  /** Once the power of ten is zero, the loop never ends. */
  lemma {:induction false} LoopStuck(i: nat, n: int, turns: nat)
    ensures NumLenLoop(i, n, 0, turns) == None
    decreases turns
  {
    if turns > 0 { LoopStuck(i, n + 1, turns - 1); }
  }

  /** One turn, with the power of ten as it is in 64 bits. */
  lemma WrappedTurn(i: int, n: int, k: nat, turns: nat)
    requires i >= Wrap(Pow10(k)) && turns > 0
    ensures NumLenLoop(i, n, Wrap(Pow10(k)), turns) == NumLenLoop(i, n + 1, Wrap(Pow10(k + 1)), turns - 1)
  {
    WrapTimesTen(Pow10(k));
    assert Pow10(k + 1) == Pow10(k) * 10;
  }

  lemma {:induction false} LoopDecided(i: nat, n: int, k: nat, turns: nat)
    requires k <= 64 && turns >= 64 - k
    ensures NumLenLoop(i, n, Wrap(Pow10(k)), turns) == NumLenLoop(i, n, Wrap(Pow10(k)), 64 - k)
    decreases 64 - k
  {
    if k == 64 {
      Pow10WrapsToZero();
      LoopStuck(i, n, turns);
      LoopStuck(i, n, 0);
    } else if i >= Wrap(Pow10(k)) {
      WrappedTurn(i, n, k, turns);
      WrappedTurn(i, n, k, 64 - k);
      LoopDecided(i, n + 1, k + 1, turns - 1);
    }
  }

  /** For every 64-bit integer, a loop that has not ended after TURNS turns never ends. */
  lemma NumLenDecided(i: int, turns: nat)
    requires InInt64(i) && turns >= TURNS
    ensures NumLen(i, turns) == NumLen(i, TURNS)
  {
    assert Pow10(1) == 10 * Pow10(0) && Wrap(Pow10(1)) == 10;
    var j := if i < 0 then Wrap(-i) else i;
    if j >= 0 {
      LoopDecided(j, if i < 0 then 2 else 1, 1, turns);
      LoopDecided(j, if i < 0 then 2 else 1, 1, TURNS);
    }
  }

  /** And there is one that it never ends for: no power of ten is above the largest integer. */
  lemma LargestNeverEnds(turns: nat)
    ensures NumLen(INT64_MAX, turns) == None
  {
    NeverAbove(1, 10, turns);
  }

  lemma {:induction false} NeverAbove(n: int, pos10: int, turns: nat)
    requires InInt64(pos10)
    ensures NumLenLoop(INT64_MAX, n, pos10, turns) == None
    decreases turns
  {
    if turns > 0 { NeverAbove(n + 1, Wrap(pos10 * 10), turns - 1); }
  }

  /**
  numLen with its overflow. The program's loop has no bound; the bound here replaces a loop that never ends by None.
  */
  method ComputeNumLen(i: int) returns (n: Option<int>)
    requires InInt64(i)
    ensures forall turns: nat :: turns >= TURNS ==> NumLen(i, turns) == n
    ensures n == Some(|Text(i)|) <==> -LIMIT < i < LIMIT
  {
    var abs, pos10, len := i, 10, 1;
    if i < 0 {
      abs := Wrap(-i);
      len := len + 1;
    }
    var turns: nat := TURNS;
    while abs >= pos10 && turns > 0
      invariant NumLen(i, TURNS) == NumLenLoop(abs, len, pos10, turns)
      decreases turns
    {
      len := len + 1;
      pos10 := Wrap(pos10 * 10);
      turns := turns - 1;
    }
    n := if abs < pos10 then Some(len) else None;
    NumLenIff(i, TURNS);
    forall turns: nat | turns >= TURNS ensures NumLen(i, turns) == n { NumLenDecided(i, turns); }
  }

  // ----- packCommand -----

  /** An argument of a command. `IntArg` is an int or an int64; the text of a float is up to the formatting package. */
  datatype Arg =
    | BytesArg(content: bytes)
    | StringArg(content: bytes)
    | IntArg(i: int)
    | UintArg(i: int)
    | FloatArg(content: bytes)
    | OtherArg

  /** The values the types of the arguments allow. */
  predicate Typed(a: Arg) {
    match a
    case IntArg(i) => InInt64(i)
    case UintArg(i) => 0 <= i < 0x1_0000_0000_0000_0000
    case OtherArg => true
    case _ => |a.content| + 2 <= INT64_MAX
  }

  /** The bytes say the argument: the content of a text, or the decimal numeral of a number. */
  predicate Carries(b: bytes, a: Arg) {
    match a
    case IntArg(i) => SignedNumeral(Chars(b), i)
    case UintArg(i) => SignedNumeral(Chars(b), i)
    case OtherArg => false
    case _ => b == a.content
  }

  /** The replies are bulks that say the arguments, one by one. */
  predicate Says(rs: seq<Reply>, args: seq<Arg>) {
    |rs| == |args| && forall k :: 0 <= k < |rs| ==> rs[k].BulkReply? && Carries(rs[k].bulk, args[k])
  }

  /** The bytes start with an array that says the arguments, and `rest` follows it. */
  predicate ReadsAs(b: bytes, args: seq<Arg>, rest: bytes) {
    var o := Recv(b);
    o.Some? && o.value.1 == rest && o.value.0.MultiReply? && Says(o.value.0.multi, args)
  }

  /** The bytes that packCommand writes for an argument. */
  function ArgText(a: Arg): bytes {
    match a
    case IntArg(i) => IntBytes(i)
    case UintArg(i) => IntBytes(i)
    case OtherArg => []
    case _ => a.content
  }

  /** The length that packCommand announces; an unsigned number is first converted to an int64. */
  function Announced(a: Arg, turns: nat): Option<int> {
    match a
    case IntArg(i) => NumLen(i, turns)
    case UintArg(i) => NumLen(Wrap(i), turns)
    case OtherArg => None
    case _ => Some(|a.content|)
  }

  /** One argument on the wire; None for a type that packCommand does not know. */
  function PackArg(a: Arg, turns: nat): Option<bytes> {
    match Announced(a, turns)
    case None => None
    case Some(n) => Some([DOLLAR] + IntBytes(n) + CRLF + (ArgText(a) + CRLF))
  }

  function PackAll(args: seq<Arg>, turns: nat): Option<bytes> {
    if args == [] then Some([])
    else
      var first := PackArg(args[0], turns);
      var others := PackAll(args[1..], turns);
      if first.None? || others.None? then None else Some(first.value + others.value)
  }

  function PackCommand(args: seq<Arg>, turns: nat): Option<bytes> {
    match PackAll(args, turns)
    case None => None
    case Some(b) => Some([STAR] + IntBytes(|args|) + CRLF + b)
  }

  /** The array of bulks that a command is for the server. */
  function Bulks(args: seq<Arg>): (rs: seq<Reply>)
    ensures |rs| == |args| && forall k :: 0 <= k < |args| ==> rs[k] == BulkReply(ArgText(args[k]))
  {
    seq(|args|, k requires 0 <= k < |args| => BulkReply(ArgText(args[k])))
  }

  /** Every length that is announced is the length of the text. */
  predicate Small(a: Arg) {
    match a
    case IntArg(i) => -LIMIT < i < LIMIT
    case UintArg(i) => i < LIMIT
    case OtherArg => false
    case _ => true
  }

  lemma CarriesIff(b: bytes, a: Arg)
    ensures Carries(b, a) <==> !a.OtherArg? && b == ArgText(a)
  {
    if a.IntArg? || a.UintArg? {
      SignedNumeralIff(Chars(b), a.i);
      TextIsLatin(a.i);
      CharsOfBytes(Text(a.i));
      if Chars(b) == Text(a.i) { CharsInjective(b, IntBytes(a.i)); }
    }
  }

  lemma CharsInjective(a: bytes, b: bytes)
    requires Chars(a) == Chars(b)
    ensures a == b
  {
    assert |a| == |b|;
    forall i | 0 <= i < |a| ensures a[i] == b[i] { assert Chars(a)[i] == Chars(b)[i]; }
  }

  /** What says the arguments is their bulks, and nothing else is. */
  lemma SaysIff(rs: seq<Reply>, args: seq<Arg>)
    ensures Says(rs, args) <==> rs == Bulks(args) && forall k :: 0 <= k < |args| ==> !args[k].OtherArg?
  {
    if |rs| == |args| {
      forall k | 0 <= k < |rs| && rs[k].BulkReply?
        ensures Carries(rs[k].bulk, args[k]) <==> !args[k].OtherArg? && rs[k] == Bulks(args)[k]
      {
        CarriesIff(rs[k].bulk, args[k]);
      }
    }
  }

  ghost predicate AllSmall(args: seq<Arg>) { forall k :: 0 <= k < |args| ==> Small(args[k]) }
  ghost predicate AllTyped(args: seq<Arg>) { |args| <= INT64_MAX && forall k :: 0 <= k < |args| ==> Typed(args[k]) }

  lemma AnnouncedIff(a: Arg, turns: nat)
    requires Typed(a) && turns >= 17
    ensures Announced(a, turns) == Some(|ArgText(a)|) <==> Small(a)
  {
    match a
    case IntArg(i) => NumLenIff(i, turns);
    case UintArg(i) => UintLen(i, turns);
    case _ =>
  }

  lemma Pow10Of20()
    ensures Pow10(18) == LIMIT && Pow10(19) == 10 * LIMIT && Pow10(20) == 100 * LIMIT
  {
    Pow10Of18();
    assert Pow10(19) == 10 * Pow10(18) && Pow10(20) == 10 * Pow10(19);
  }

  /** An unsigned number of 10^18 or more is announced too short or too long, whether or not it turns negative. */
  lemma UintLen(i: int, turns: nat)
    requires 0 <= i < 0x1_0000_0000_0000_0000 && turns >= 17
    ensures NumLen(Wrap(i), turns) == Some(|Text(i)|) <==> i < LIMIT
  {
    if InInt64(i) { NumLenIff(i, turns); } else { NegativeUintLen(i, turns); }
  }

  /** The number turns negative: what is announced is the length of another number, or too long. */
  lemma NegativeUintLen(i: int, turns: nat)
    requires INT64_MAX < i < 0x1_0000_0000_0000_0000 && turns >= 17
    ensures NumLen(Wrap(i), turns) != Some(|Text(i)|)
  {
    var j := i - 0x1_0000_0000_0000_0000;
    assert Wrap(i) == j;
    NegativeLen(j, turns);
    LongUint(i);
  }

  /** What numLen says of a negative number: two for the least one, its length above the negative limit, else at least 21. */
  lemma NegativeLen(j: int, turns: nat)
    requires INT64_MIN <= j < 0 && turns >= 17
    ensures j == INT64_MIN ==> NumLen(j, turns) == Some(2)
    ensures -LIMIT < j ==> NumLen(j, turns) == Some(|Text(j)|) && |Text(j)| <= 19
    ensures INT64_MIN < j <= -LIMIT ==> NumLen(j, turns).None? || NumLen(j, turns).value >= 21
  {
    assert Pow10(1) == 10 * Pow10(0);
    if j == INT64_MIN {
      assert Wrap(-j) == j;
    } else if -LIMIT < j {
      NumLenIff(j, turns);
      Pow10Of18();
      FewDigits(-j, 18);
    } else {
      LoopOvercounts(-j, 1, 1, turns);
    }
  }

  /** The text of an unsigned number that is no int64 has 19 or 20 digits, and 20 from 10^19 on. */
  lemma LongUint(i: int)
    requires INT64_MAX < i < 0x1_0000_0000_0000_0000
    ensures 3 <= |Text(i)| <= 20 && (i >= 10 * LIMIT ==> |Text(i)| == 20)
  {
    Pow10Of20();
    FewDigits(i, 20);
    if i >= 10 * LIMIT { DigitsLength(i, 20); }
    assert |Digits(i)| == |Digits(i / 10)| + 1 && |Digits(i / 10)| == |Digits(i / 10 / 10)| + 1;
  }

  /** The command is the encoding of its bulks when every length is right. */
  lemma {:induction false} PackAllEncodes(args: seq<Arg>, turns: nat)
    requires AllTyped(args) && AllSmall(args) && turns >= 17
    ensures PackAll(args, turns) == Some(EncodeAll(Bulks(args))) && AllSendable(Bulks(args))
  {
    if args != [] {
      AnnouncedIff(args[0], turns);
      PackAllEncodes(args[1..], turns);
      assert Bulks(args)[1..] == Bulks(args[1..]);
      TextSize(args[0]);
    }
  }

  lemma TextSize(a: Arg)
    requires Typed(a)
    ensures |ArgText(a)| + 2 <= INT64_MAX
  {
    if a.IntArg? || a.UintArg? {
      Pow10Of20();
      FewDigits(if a.i < 0 then -a.i else a.i, 20);
    } else if a.OtherArg? {
      assert ArgText(a) == [];
    }
  }

  lemma Regroup(a: bytes, b: bytes, c: bytes, d: bytes)
    ensures ((a + b) + c) + d == a + (b + (c + d))
  {
  }

  /** If an array of bulks decodes to the texts of the arguments, every length was right. */
  lemma {:induction false} DecodedMeansSmall(args: seq<Arg>, turns: nat, rest: bytes)
    requires AllTyped(args) && turns >= 17 && PackAll(args, turns).Some?
    requires RecvAll(PackAll(args, turns).value + rest, |args|) == Some((Bulks(args), rest))
    ensures AllSmall(args)
  {
    if args != [] {
      FirstDecoded(args, turns, rest);
      DecodedMeansSmall(args[1..], turns, rest);
      SmallCons(args);
    }
  }

  lemma FirstDecoded(args: seq<Arg>, turns: nat, rest: bytes)
    requires AllTyped(args) && turns >= 17 && args != [] && PackAll(args, turns).Some?
    requires RecvAll(PackAll(args, turns).value + rest, |args|) == Some((Bulks(args), rest))
    ensures Small(args[0]) && PackAll(args[1..], turns).Some?
    ensures RecvAll(PackAll(args[1..], turns).value + rest, |args| - 1) == Some((Bulks(args[1..]), rest))
  {
    AnnouncedNumber(args[0], turns);
    ElementDecoded(Announced(args[0], turns).value, ArgText(args[0]), PackAll(args[1..], turns).value, Bulks(args), rest);
    AnnouncedIff(args[0], turns);
    assert Bulks(args)[1..] == Bulks(args[1..]);
  }

  lemma SmallCons(args: seq<Arg>)
    requires args != [] && Small(args[0]) && AllSmall(args[1..])
    ensures AllSmall(args)
  {
    forall k | 0 <= k < |args| ensures Small(args[k]) { if k > 0 { assert args[k] == args[1..][k - 1]; } }
  }

  /** If the first element read is the text that follows the header, the header was right, and the others follow. */
  lemma ElementDecoded(n: nat, text: bytes, others: bytes, rs: seq<Reply>, rest: bytes)
    requires |rs| > 0 && rs[0] == BulkReply(text)
    requires RecvAll([DOLLAR] + IntBytes(n) + CRLF + (text + CRLF) + others + rest, |rs|) == Some((rs, rest))
    ensures n == |text| && RecvAll(others + rest, |rs| - 1) == Some((rs[1..], rest))
  {
    Regroup([DOLLAR] + IntBytes(n) + CRLF, text + CRLF, others, rest);
    RecvAnnounced(n, text, others + rest);
    FirstAndOthers([DOLLAR] + IntBytes(n) + CRLF + (text + CRLF) + others + rest, rs, rest);
  }

  lemma FirstAndOthers(b: bytes, rs: seq<Reply>, rest: bytes)
    requires |rs| > 0 && RecvAll(b, |rs|) == Some((rs, rest))
    ensures Recv(b).Some? && Recv(b).value.0 == rs[0] && RecvAll(Recv(b).value.1, |rs| - 1) == Some((rs[1..], rest))
  {
  }

  /** What is announced is a number that is not negative. */
  lemma AnnouncedNumber(a: Arg, turns: nat)
    requires Typed(a) && Announced(a, turns).Some?
    ensures Announced(a, turns).value >= 0
  {
    match a
    case IntArg(i) => LoopOnlyGrows(if i < 0 then Wrap(-i) else i, if i < 0 then 2 else 1, 10, turns);
    case UintArg(i) => LoopOnlyGrows(if Wrap(i) < 0 then Wrap(-Wrap(i)) else Wrap(i), if Wrap(i) < 0 then 2 else 1, 10, turns);
    case _ =>
  }

  /** A bulk that is announced with length `n`, right or wrong: what is read has that length. */
  lemma RecvAnnounced(n: nat, text: bytes, more: bytes)
    ensures var o := Recv([DOLLAR] + IntBytes(n) + CRLF + (text + CRLF + more));
      o.Some? ==> o.value.0.BulkReply? && |o.value.0.bulk| == n && (n == |text| ==> o.value.1 == more)
  {
    var tail := (text + CRLF) + more;
    RecvLine(DOLLAR, IntBytes(n), tail);
    if InInt64(n) {
      ParseIntBytes(n);
      if n == |text| { assert tail[n + 2..] == more; }
    } else {
      ParseTooLarge(n);
    }
  }

  lemma ParseTooLarge(n: nat)
    requires !InInt64(n)
    ensures ParseBytes(IntBytes(n)) == None
  {
    TextIsLatin(n);
    CharsOfBytes(Text(n));
    assert IsDigit(Text(n)[0]);
    ValueOfDigits(n);
  }

  lemma ArrayDecoded(body: bytes, rs: seq<Reply>, rest: bytes)
    requires |rs| <= INT64_MAX && Recv([STAR] + IntBytes(|rs|) + CRLF + body + rest) == Some((MultiReply(rs), rest))
    ensures RecvAll(body + rest, |rs|) == Some((rs, rest))
  {
    assert [STAR] + IntBytes(|rs|) + CRLF + body + rest == [STAR] + IntBytes(|rs|) + CRLF + (body + rest);
    RecvArrayHeader(|rs|, body + rest);
  }

  lemma BulksReadBackIff(args: seq<Arg>, turns: nat, rest: bytes)
    requires AllTyped(args) && turns >= 17
    ensures (PackCommand(args, turns).Some? && Recv(PackCommand(args, turns).value + rest) == Some((MultiReply(Bulks(args)), rest)))
      <==> AllSmall(args)
  {
    if AllSmall(args) {
      PackAllEncodes(args, turns);
      RecvEncode(MultiReply(Bulks(args)), rest);
    }
    var all := PackAll(args, turns);
    if all.Some? {
      if Recv(PackCommand(args, turns).value + rest) == Some((MultiReply(Bulks(args)), rest)) {
        ArrayDecoded(all.value, Bulks(args), rest);
        DecodedMeansSmall(args, turns, rest);
      }
    }
  }

  lemma SomeOtherRejects(args: seq<Arg>, turns: nat)
    requires PackAll(args, turns).Some?
    ensures forall k :: 0 <= k < |args| ==> !args[k].OtherArg?
  {
    if args != [] {
      SomeOtherRejects(args[1..], turns);
      forall k | 0 <= k < |args| ensures !args[k].OtherArg? { if k > 0 { assert args[k] == args[1..][k - 1]; } }
    }
  }

  /**
  The bytes of a command are read back as an array that says its arguments, with nothing left over, exactly when every
  argument has a type that packCommand knows and every number has a magnitude below 10^18.
  */
  lemma PackCommandIff(args: seq<Arg>, turns: nat, rest: bytes)
    requires AllTyped(args) && turns >= 17
    ensures PackCommand(args, turns).Some? && ReadsAs(PackCommand(args, turns).value + rest, args, rest) <==> AllSmall(args)
  {
    BulksReadBackIff(args, turns, rest);
    if PackCommand(args, turns).Some? {
      SomeOtherRejects(args, turns);
      var o := Recv(PackCommand(args, turns).value + rest);
      if o.Some? && o.value.0.MultiReply? { SaysIff(o.value.0.multi, args); }
    }
  }

  /** So strconv.ParseInt finds every number in its bulk, and every text is its bulk. */
  lemma CommandNumbers(args: seq<Arg>, turns: nat, rest: bytes, k: nat)
    requires AllTyped(args) && AllSmall(args) && turns >= 17 && k < |args|
    ensures PackCommand(args, turns).Some?
    ensures var o := Recv(PackCommand(args, turns).value + rest);
      && o.Some? && o.value.1 == rest && o.value.0.MultiReply? && |o.value.0.multi| == |args| && o.value.0.multi[k].BulkReply?
      && match args[k]
         case IntArg(i) => ParseBytes(o.value.0.multi[k].bulk) == Some(i)
         case UintArg(i) => ParseBytes(o.value.0.multi[k].bulk) == Some(i)
         case OtherArg => false
         case a => o.value.0.multi[k].bulk == a.content
  {
    BulksReadBackIff(args, turns, rest);
    if args[k].IntArg? || args[k].UintArg? { ParseIntBytes(args[k].i); }
  }

  // ----- Streams of commands -----

  /** Two commands that start the same stream have the same arguments, and the streams go on the same. */
  lemma PackCommandUnique(a: seq<Arg>, b: seq<Arg>, x: bytes, y: bytes, turns: nat)
    requires AllTyped(a) && AllTyped(b) && AllSmall(a) && AllSmall(b) && turns >= 17
    requires PackCommand(a, turns).Some? && PackCommand(b, turns).Some?
    requires PackCommand(a, turns).value + x == PackCommand(b, turns).value + y
    ensures |a| == |b| && (forall k, t :: 0 <= k < |a| ==> (Carries(t, a[k]) <==> Carries(t, b[k]))) && x == y
  {
    BulksReadBackIff(a, turns, x);
    BulksReadBackIff(b, turns, y);
    assert Bulks(a) == Bulks(b);
    forall k, t | 0 <= k < |a| ensures Carries(t, a[k]) <==> Carries(t, b[k]) {
      CarriesIff(t, a[k]);
      CarriesIff(t, b[k]);
      assert Bulks(a)[k] == Bulks(b)[k] && Small(a[k]) && Small(b[k]);
    }
  }

  /** The commands of a stream, one after the other. */
  function Stream(commands: seq<seq<Arg>>, turns: nat): Option<bytes> {
    if commands == [] then Some([])
    else
      var first := PackCommand(commands[0], turns);
      var others := Stream(commands[1..], turns);
      if first.None? || others.None? then None else Some(first.value + others.value)
  }

  function Arrays(commands: seq<seq<Arg>>): (rs: seq<Reply>)
    ensures |rs| == |commands|
  {
    seq(|commands|, k requires 0 <= k < |commands| => MultiReply(Bulks(commands[k])))
  }

  lemma FirstSplits(args: seq<Arg>, others: bytes, rs: seq<Reply>, turns: nat, rest: bytes)
    requires turns >= 17 && AllTyped(args) && AllSmall(args) && RecvAll(others + rest, |rs|) == Some((rs, rest))
    ensures PackCommand(args, turns).Some?
    ensures RecvAll(PackCommand(args, turns).value + others + rest, |rs| + 1) == Some(([MultiReply(Bulks(args))] + rs, rest))
  {
    BulksReadBackIff(args, turns, others + rest);
    assert PackCommand(args, turns).value + others + rest == PackCommand(args, turns).value + (others + rest);
  }

  lemma ArraysFirst(commands: seq<seq<Arg>>)
    requires commands != []
    ensures Arrays(commands) == [MultiReply(Bulks(commands[0]))] + Arrays(commands[1..])
  {
  }

  /** A stream of commands splits into exactly those commands. */
  lemma StreamSplits(commands: seq<seq<Arg>>, turns: nat, rest: bytes)
    requires turns >= 17 && forall k :: 0 <= k < |commands| ==> AllTyped(commands[k]) && AllSmall(commands[k])
    ensures Stream(commands, turns).Some?
    ensures var o := RecvAll(Stream(commands, turns).value + rest, |commands|);
      && o.Some? && o.value.1 == rest
      && forall k :: 0 <= k < |commands| ==> o.value.0[k].MultiReply? && Says(o.value.0[k].multi, commands[k])
  {
    StreamIsArrays(commands, turns, rest);
    forall k | 0 <= k < |commands| ensures Says(Arrays(commands)[k].multi, commands[k]) {
      assert forall j :: 0 <= j < |commands[k]| ==> Small(commands[k][j]);
      SaysIff(Bulks(commands[k]), commands[k]);
    }
  }

  lemma {:induction false} StreamIsArrays(commands: seq<seq<Arg>>, turns: nat, rest: bytes)
    requires turns >= 17 && forall k :: 0 <= k < |commands| ==> AllTyped(commands[k]) && AllSmall(commands[k])
    ensures Stream(commands, turns).Some?
    ensures RecvAll(Stream(commands, turns).value + rest, |commands|) == Some((Arrays(commands), rest))
  {
    if commands != [] {
      StreamIsArrays(commands[1..], turns, rest);
      FirstSplits(commands[0], Stream(commands[1..], turns).value, Arrays(commands[1..]), turns, rest);
      ArraysFirst(commands);
    } else {
      assert Stream(commands, turns).value + rest == rest;
    }
  }

  // ----- The method of the program -----

  /** The loop of packCommand over the arguments, with the bytes written so far. */
  function PackFrom(done: bytes, args: seq<Arg>): Option<bytes>
    decreases |args|
  {
    if args == [] then Some(done)
    else
      match PackArg(args[0], TURNS)
      case None => None
      case Some(b) => PackFrom(done + b, args[1..])
  }

  lemma {:induction false} PackFromIsPackAll(done: bytes, args: seq<Arg>)
    ensures PackFrom(done, args) == var all := PackAll(args, TURNS); if all.None? then None else Some(done + all.value)
    decreases |args|
  {
    if args != [] {
      var first := PackArg(args[0], TURNS);
      if first.Some? {
        PackFromIsPackAll(done + first.value, args[1..]);
        var others := PackAll(args[1..], TURNS);
        if others.Some? { Assoc(done, first.value, others.value); }
      }
    } else {
      assert done + [] == done;
    }
  }

  /** The second switch of packCommand: what is written for an argument says it. */
  method ArgumentText(a: Arg) returns (b: bytes)
    ensures b == ArgText(a) && (!a.OtherArg? ==> Carries(b, a))
  {
    match a {
      case OtherArg => b := [];
      case IntArg(i) => b := IntBytes(i);
      case UintArg(i) => b := IntBytes(i);
      case BytesArg(content) => b := content;
      case StringArg(content) => b := content;
      case FloatArg(content) => b := content;
    }
    CarriesIff(b, a);
  }

  /** The loop of packCommand over the arguments. */
  method WriteArguments(header: bytes, args: seq<Arg>) returns (r: Option<bytes>)
    requires forall k :: 0 <= k < |args| ==> Typed(args[k])
    ensures r == PackFrom(header, args)
  {
    var res := header;
    var i := 0;
    while i < |args|
      invariant 0 <= i <= |args|
      invariant PackFrom(header, args) == PackFrom(res, args[i..])
    {
      var len := AnnouncedLength(args[i]);
      if len.None? { return None; }
      var text := ArgumentText(args[i]);
      res := res + ([DOLLAR] + IntBytes(len.value) + CRLF + (text + CRLF));
      i := i + 1;
    }
    r := Some(res);
  }

  /**
  packCommand, for arguments of every size. None is an error return for a type that it does not know, or a numLen that
  never ends. The bytes are an encoding of the arguments exactly when every number is below the limit.
  */
  method WriteCommand(args: seq<Arg>) returns (r: Option<bytes>)
    requires AllTyped(args)
    ensures r == PackCommand(args, TURNS)
    ensures r.Some? && ReadsAs(r.value, args, []) <==> AllSmall(args)
    ensures r == Some(Encode(MultiReply(Bulks(args)))) <==> AllSmall(args)
  {
    var header := [STAR] + IntBytes(|args|) + CRLF;
    r := WriteArguments(header, args);
    PackFromIsPackAll(header, args);
    PackCommandIff(args, TURNS, []);
    if r.Some? { assert r.value + [] == r.value; }
    EncodedIff(args);
  }

  lemma EncodedIff(args: seq<Arg>)
    requires AllTyped(args)
    ensures PackCommand(args, TURNS) == Some(Encode(MultiReply(Bulks(args)))) <==> AllSmall(args)
  {
    BulksReadBackIff(args, TURNS, []);
    if AllSmall(args) {
      PackAllEncodes(args, TURNS);
    } else if PackCommand(args, TURNS) == Some(Encode(MultiReply(Bulks(args)))) {
      TextsSendable(args);
      RecvEncode(MultiReply(Bulks(args)), []);
    }
  }

  lemma {:induction false} TextsSendable(args: seq<Arg>)
    requires AllTyped(args)
    ensures AllSendable(Bulks(args))
  {
    if args != [] {
      TextsSendable(args[1..]);
      assert Bulks(args)[1..] == Bulks(args[1..]);
      TextSize(args[0]);
    }
  }

  /** The length of one argument as packCommand computes it. */
  method AnnouncedLength(a: Arg) returns (len: Option<int>)
    requires Typed(a)
    ensures len == Announced(a, TURNS)
  {
    match a {
      case OtherArg => len := None;
      case IntArg(i) => len := ComputeNumLen(i);
      case UintArg(i) => len := ComputeNumLen(Wrap(i));
      case BytesArg(b) => len := Some(|b|);
      case StringArg(b) => len := Some(|b|);
      case FloatArg(b) => len := Some(|b|);
    }
  }

  /** An argument of an unknown type, wherever it stands, is an error. */
  lemma {:induction false} PackAllRejects(args: seq<Arg>, i: nat)
    requires i < |args| && args[i] == OtherArg
    ensures PackAll(args, TURNS).None?
  {
    if i > 0 {
      assert args[i] == args[1..][i - 1];
      PackAllRejects(args[1..], i - 1);
    }
  }

  // ----- A number that is too large -----

  const LARGEST: Arg := UintArg(0xffff_ffff_ffff_ffff)

  /**
  An input that shows why: the largest unsigned number, in last place, is announced with two digits instead of twenty.
  The server reads a command that ends in the first two digits, skips two more as the end of the line, and is left with
  sixteen digits and the end of a line, which it takes for another command.
  */
  lemma LargestNumberSplits(before: seq<Arg>)
    requires AllTyped(before) && AllSmall(before) && |before| < INT64_MAX
    ensures var b := PackCommand(before + [LARGEST], TURNS); var text := ArgText(LARGEST);
      && b.Some? && |text| == 20
      && Recv(b.value) == Some((MultiReply(Bulks(before) + [BulkReply(text[..2])]), text[4..] + CRLF))
  {
    LargestLength();
    LargestAnnounced();
    PackedWithLast(before, LARGEST, 2, TURNS);
    LargestIsCut();
    var tail := [DOLLAR] + IntBytes(2) + CRLF + (ArgText(LARGEST) + CRLF);
    RecvAllAppend(Bulks(before), tail);
    RecvArrayHeader(|before| + 1, EncodeAll(Bulks(before)) + tail);
  }

  /** The bytes of a command, apart into header, arguments and the last argument, whatever length is announced for it. */
  lemma PackedWithLast(before: seq<Arg>, last: Arg, n: nat, turns: nat)
    requires AllTyped(before) && AllSmall(before) && turns >= 17 && Announced(last, turns) == Some(n)
    ensures PackCommand(before + [last], turns) == Some([STAR] + IntBytes(|before| + 1) + CRLF
      + (EncodeAll(Bulks(before)) + ([DOLLAR] + IntBytes(n) + CRLF + (ArgText(last) + CRLF)))) && AllSendable(Bulks(before))
  {
    PackAllEncodes(before, turns);
    PackAllAppend(before, last, turns);
  }

  /** The server reads two digits, skips two, and leaves the rest. */
  lemma LargestIsCut()
    ensures |ArgText(LARGEST)| == 20
    ensures var text := ArgText(LARGEST);
      Recv([DOLLAR] + IntBytes(2) + CRLF + (text + CRLF)) == Some((BulkReply(text[..2]), text[4..] + CRLF))
  {
    LargestLength();
    TwoRead(ArgText(LARGEST), CRLF);
  }

  lemma TwoRead(text: bytes, end: bytes)
    requires |text| >= 4
    ensures Recv([DOLLAR] + IntBytes(2) + CRLF + (text + end)) == Some((BulkReply(text[..2]), text[4..] + end))
  {
    TwoAndTwo(text, end);
    BulkWithAnyEnd(text[..2], text[2..4], text[4..] + end);
  }

  lemma TwoAndTwo(text: bytes, end: bytes)
    requires |text| >= 4
    ensures text + end == text[..2] + text[2..4] + (text[4..] + end)
  {
  }

  lemma LargestLength()
    ensures |ArgText(LARGEST)| == 20
  {
    Pow10Of20();
    DigitsLength(LARGEST.i, 20);
  }

  lemma LargestAnnounced()
    ensures Announced(LARGEST, TURNS) == Some(2)
  {
    assert Wrap(LARGEST.i) == -1 && Wrap(1) == 1;
  }

  lemma Assoc(a: bytes, b: bytes, c: bytes)
    ensures a + (b + c) == (a + b) + c
  {
  }

  lemma PackAllOne(a: Arg, turns: nat)
    ensures PackAll([a], turns) == PackArg(a, turns)
  {
    assert [a][1..] == [];
    if PackArg(a, turns).Some? { assert PackArg(a, turns).value + [] == PackArg(a, turns).value; }
  }

  lemma {:induction false} PackAllAppend(args: seq<Arg>, a: Arg, turns: nat)
    requires PackAll(args, turns).Some? && PackArg(a, turns).Some?
    ensures PackAll(args + [a], turns) == Some(PackAll(args, turns).value + PackArg(a, turns).value)
  {
    if args != [] {
      assert (args + [a])[0] == args[0] && (args + [a])[1..] == args[1..] + [a];
      PackAllAppend(args[1..], a, turns);
      Assoc(PackArg(args[0], turns).value, PackAll(args[1..], turns).value, PackArg(a, turns).value);
    } else {
      assert args + [a] == [a];
      PackAllOne(a, turns);
      assert [] + PackArg(a, turns).value == PackArg(a, turns).value;
    }
  }

  /** A bulk whatever two bytes follow its content. */
  lemma BulkWithAnyEnd(content: bytes, end: bytes, rest: bytes)
    requires |content| <= INT64_MAX && |end| == 2
    ensures Recv([DOLLAR] + IntBytes(|content|) + CRLF + (content + end + rest)) == Some((BulkReply(content), rest))
  {
    var tail := content + end + rest;
    RecvLine(DOLLAR, IntBytes(|content|), tail);
    ParseIntBytes(|content|);
    assert tail[..|content|] == content && tail[|content| + 2..] == rest;
  }

  /** A reply that was encoded, and the elements after it. */
  lemma RecvNext(r: Reply, b: bytes, n: nat)
    requires Sendable(r) && RecvAll(b, n).Some?
    ensures RecvAll(Encode(r) + b, n + 1) == Some(([r] + RecvAll(b, n).value.0, RecvAll(b, n).value.1))
  {
    RecvEncode(r, b);
  }

  lemma RecvOne(b: bytes)
    requires Recv(b).Some?
    ensures RecvAll(b, 1) == Some(([Recv(b).value.0], Recv(b).value.1))
  {
    var (r, rest) := Recv(b).value;
    assert RecvAll(rest, 0) == Some(([], rest));
    assert [r] + [] == [r];
  }

  /** An array whose last element is read from bytes that are no encoding. */
  lemma {:induction false} RecvAllAppend(rs: seq<Reply>, tail: bytes)
    requires AllSendable(rs) && Recv(tail).Some?
    ensures RecvAll(EncodeAll(rs) + tail, |rs| + 1) == Some((rs + [Recv(tail).value.0], Recv(tail).value.1))
  {
    var last := Recv(tail).value.0;
    if rs == [] {
      assert EncodeAll(rs) + tail == tail && [] + [last] == [last];
      RecvOne(tail);
    } else {
      RecvAllAppend(rs[1..], tail);
      EncodeFirst(rs, tail);
      RecvNext(rs[0], EncodeAll(rs[1..]) + tail, |rs|);
      FirstAndRest(rs, last);
    }
  }

  lemma EncodeFirst(rs: seq<Reply>, tail: bytes)
    requires rs != []
    ensures EncodeAll(rs) + tail == Encode(rs[0]) + (EncodeAll(rs[1..]) + tail)
  {
  }

  lemma FirstAndRest(rs: seq<Reply>, last: Reply)
    requires rs != []
    ensures [rs[0]] + (rs[1..] + [last]) == rs + [last]
  {
  }
}
