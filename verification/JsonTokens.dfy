/** Tokens of the text that objects are stored as, and reading an integer from a token. */
module JsonTokens {
  import opened Basics
  import opened Decimal

  const QUOTE: char := '"'

  predicate IsSpace(c: char) { c == ' ' || c == '\t' || c == '\r' || c == '\n' }

  predicate IsSpecial(c: char) {
    c == '"' || c == ':' || c == '\'' || c == '[' || c == ']' || c == '{' || c == '}' || c == ','
  }

  /** A token that starts with another character ends before such a one. */
  predicate IsDelimiter(c: char) { IsSpace(c) || IsSpecial(c) }

  /** strings.Index for one character; the length of the text stands for "not found". */
  function Index(s: string, c: char): (n: nat)
    ensures n <= |s|
  {
    if s == [] || s[0] == c then 0 else 1 + Index(s[1..], c)
  }

  lemma {:induction false} IndexFinds(s: string, c: char)
    ensures Index(s, c) < |s| ==> s[Index(s, c)] == c
    ensures forall i :: 0 <= i < Index(s, c) ==> s[i] != c
  {
    if s != [] && s[0] != c {
      IndexFinds(s[1..], c);
      forall i | 0 <= i < Index(s, c) ensures s[i] != c { assert i > 0 ==> s[i] == s[1..][i - 1]; }
    }
  }

  lemma {:induction false} IndexSkips(a: string, c: char, b: string)
    requires c !in a
    ensures Index(a + [c] + b, c) == |a|
  {
    if a != [] {
      assert (a + [c] + b)[0] == a[0] && (a + [c] + b)[1..] == a[1..] + [c] + b;
      IndexSkips(a[1..], c, b);
    }
  }

  /** strings.TrimLeft with the whitespace characters */
  function Trim(s: string): (t: string)
    ensures |t| <= |s|
    ensures t != [] ==> !IsSpace(t[0])
  {
    if s != [] && IsSpace(s[0]) then Trim(s[1..]) else s
  }

  /** The position of the first delimiter, or the length. */
  function WordLength(s: string): (n: nat)
    ensures n <= |s|
  {
    if s == [] || IsDelimiter(s[0]) then 0 else 1 + WordLength(s[1..])
  }

  /** A token and the text that follows it; the empty token stands for the end of the text. */
  datatype Tok = Tok(text: string, rest: string)

  /** The token at the start of a text that does not start with a space. */
  function TokenOf(trimmed: string): (t: Tok)
    ensures t.text + t.rest == trimmed
    ensures t.text == "" ==> t.rest == ""
    ensures |t.text| + |t.rest| == |trimmed|
  {
    if trimmed == "" then Tok("", "")
    else
      var n := if IsSpecial(trimmed[0]) then 1 else 1 + WordLength(trimmed[1..]);
      Tok(trimmed[..n], trimmed[n..])
  }

  /** parseJSON_findNextToken: a special character alone, or everything up to the next delimiter. */
  function NextToken(s: string): (t: Tok)
    ensures t.text + t.rest == Trim(s)
    ensures t.text == "" ==> t.rest == ""
    ensures |t.text| + |t.rest| <= |s|
  {
    TokenOf(Trim(s))
  }

  /** parseJSON_pushTokenBack: the token is in front again, but not the space before it. */
  function PushBack(t: Tok): string { t.text + t.rest }

  lemma {:induction false} TrimTwice(s: string)
    ensures Trim(Trim(s)) == Trim(s)
  {
    if s != [] && IsSpace(s[0]) { TrimTwice(s[1..]); }
  }

  /** Reading a token, pushing it back and reading again gives the same token and ends at the same place. */
  lemma ReadAgain(s: string)
    ensures NextToken(PushBack(NextToken(s))) == NextToken(s)
  {
    TrimTwice(s);
    assert PushBack(NextToken(s)) == Trim(s);
  }

  /** What is left after the space is skipped is the end of the text. */
  lemma {:induction false} TrimIsEnd(s: string)
    ensures Trim(s) == s[|s| - |Trim(s)|..]
  {
    if s != [] && IsSpace(s[0]) {
      TrimIsEnd(s[1..]);
      assert s[1..][|s[1..]| - |Trim(s)|..] == s[|s| - |Trim(s)|..];
    }
  }

  /** A token that is not empty always advances. */
  lemma TokenAdvances(s: string)
    ensures NextToken(s).text != "" ==> |NextToken(s).rest| < |s|
    ensures NextToken(s).text == "" <==> forall i :: 0 <= i < |s| ==> IsSpace(s[i])
  {
    TrimEmptyIff(s);
  }

  lemma {:induction false} TrimEmptyIff(s: string)
    ensures Trim(s) == "" <==> forall i :: 0 <= i < |s| ==> IsSpace(s[i])
  {
    if s != [] && IsSpace(s[0]) {
      TrimEmptyIff(s[1..]);
      if Trim(s) == "" {
        forall i | 0 <= i < |s| ensures IsSpace(s[i]) { assert i > 0 ==> s[i] == s[1..][i - 1]; }
      } else {
        var i :| 0 <= i < |s[1..]| && !IsSpace(s[1..][i]);
        assert s[1..][i] == s[i + 1];
      }
    }
  }

  // ----- Which characters make a token, spelled out -----

  predicate White(c: char) { c in " \t\r\n" }

  predicate Special(c: char) { c in "\":'[]{}," }

  lemma CharactersMean(c: char)
    ensures IsSpace(c) <==> White(c)
    ensures IsSpecial(c) <==> Special(c)
  {
  }

  lemma {:induction false} WordLengthMeans(s: string)
    ensures var n := WordLength(s);
      && (forall k :: 0 <= k < n ==> !White(s[k]) && !Special(s[k]))
      && (n < |s| ==> White(s[n]) || Special(s[n]))
  {
    if s != "" {
      CharactersMean(s[0]);
      if !IsDelimiter(s[0]) {
        WordLengthMeans(s[1..]);
        forall k | 0 <= k < WordLength(s) ensures !White(s[k]) && !Special(s[k]) { assert k > 0 ==> s[k] == s[1..][k - 1]; }
      }
    }
  }

  lemma {:induction false} TrimMeans(s: string)
    ensures var k := |s| - |Trim(s)|;
      && (forall i :: 0 <= i < k ==> White(s[i])) && Trim(s) == s[k..] && (Trim(s) != "" ==> !White(Trim(s)[0]))
  {
    TrimIsEnd(s);
    if s != "" {
      CharactersMean(s[0]);
      if IsSpace(s[0]) {
        TrimMeans(s[1..]);
        forall i | 0 <= i < |s| - |Trim(s)| ensures White(s[i]) { assert i > 0 ==> s[i] == s[1..][i - 1]; }
      }
    }
  }

  /** White space, a token, and the rest: the token is one special character, or a longest run of other characters. */
  ghost predicate Tokenized(s: string, blank: string, token: string, rest: string) {
    && s == blank + (token + rest) && (forall i :: 0 <= i < |blank| ==> White(blank[i]))
    && (token == "" ==> rest == "") && (token != "" ==> SpecialAlone(token) || WholeWord(token, rest))
  }

  predicate SpecialAlone(token: string) { |token| == 1 && Special(token[0]) }

  predicate WholeWord(token: string, rest: string) {
    && (forall i :: 0 <= i < |token| ==> !White(token[i]) && !Special(token[i]))
    && (rest != "" ==> White(rest[0]) || Special(rest[0]))
  }

  lemma TokenOfMeans(s: string)
    requires s != "" && !White(s[0])
    ensures var t := TokenOf(s); t.text != "" && (SpecialAlone(t.text) || WholeWord(t.text, t.rest))
  {
    CharactersMean(s[0]);
    WordLengthMeans(s[1..]);
    if !IsSpecial(s[0]) {
      var t := TokenOf(s);
      forall i | 0 <= i < |t.text| ensures !White(t.text[i]) && !Special(t.text[i]) { assert i > 0 ==> t.text[i] == s[1..][i - 1]; }
      assert t.rest == s[1..][WordLength(s[1..])..];
    }
  }

  /** Every text is read as white space, a token and the rest, in the characters of the format. */
  lemma NextTokenMeans(s: string)
    ensures var t := NextToken(s); Tokenized(s, s[..|s| - |Trim(s)|], t.text, t.rest)
  {
    var k := |s| - |Trim(s)|;
    TrimMeans(s);
    CutInTwo(s, k, NextToken(s).text + NextToken(s).rest);
    if Trim(s) != "" { TokenOfMeans(Trim(s)); }
    forall i | 0 <= i < |s[..k]| ensures White(s[..k][i]) { assert s[..k][i] == s[i]; }
  }

  lemma CutInTwo(s: string, k: nat, tail: string)
    requires k <= |s| && s[k..] == tail
    ensures s == s[..k] + tail
  {
  }

  // ----- Tokens at the start of a text -----

  lemma SpaceSkipped(s: string)
    ensures NextToken(" " + s) == NextToken(s)
  {
    assert (" " + s)[1..] == s;
  }

  lemma SpecialToken(c: char, rest: string)
    requires IsSpecial(c)
    ensures NextToken([c] + rest) == Tok([c], rest)
  {
    assert Trim([c] + rest) == [c] + rest;
  }

  /** No character of the word ends a token. */
  predicate IsWord(w: string) { w != "" && forall i :: 0 <= i < |w| ==> !IsDelimiter(w[i]) }

  lemma {:induction false} WordEnds(w: string, c: char, rest: string)
    requires IsDelimiter(c) && forall i :: 0 <= i < |w| ==> !IsDelimiter(w[i])
    ensures WordLength(w + [c] + rest) == |w|
  {
    if w != [] {
      assert (w + [c] + rest)[0] == w[0] && (w + [c] + rest)[1..] == w[1..] + [c] + rest;
      WordEnds(w[1..], c, rest);
    }
  }

  lemma WordToken(w: string, c: char, rest: string)
    requires IsWord(w) && IsDelimiter(c)
    ensures NextToken(w + [c] + rest) == Tok(w, [c] + rest)
  {
    var s := w + [c] + rest;
    assert s[0] == w[0] && s[1..] == w[1..] + [c] + rest;
    WordEnds(w[1..], c, rest);
    assert Trim(s) == s;
    assert s[..|w|] == w && s[|w|..] == [c] + rest;
  }

  // ----- Integers -----

  /** The number of digits at the start. */
  function DigitCount(s: string): (n: nat)
    ensures n <= |s| && AllDigits(s[..n])
  {
    if s == [] || !IsDigit(s[0]) then 0 else 1 + DigitCount(s[1..])
  }

  /** fmt.Sscanf with "%d": a sign and at least one digit at the start; what follows them is not looked at. */
  function ScanInt(token: string): Option<int> {
    if token == "" then None
    else if token[0] == '-' then ScanDigits(token[1..], -1)
    else if token[0] == '+' then ScanDigits(token[1..], 1)
    else ScanDigits(token, 1)
  }

  function ScanDigits(s: string, sign: int): Option<int> {
    var n := DigitCount(s);
    if n == 0 || !InInt64(sign * Value(s[..n])) then None else Some(sign * Value(s[..n]))
  }

  lemma {:induction false} DigitCountOf(s: string)
    requires AllDigits(s)
    ensures DigitCount(s) == |s|
  {
    if s != [] { DigitCountOf(s[1..]); }
  }

  lemma ScanDigitsOf(n: nat, sign: int)
    requires InInt64(sign * n)
    ensures ScanDigits(Digits(n), sign) == Some(sign * n)
  {
    DigitCountOf(Digits(n));
    assert Digits(n)[..|Digits(n)|] == Digits(n);
    ValueOfDigits(n);
  }

  lemma ScanIntOfText(i: int)
    requires InInt64(i)
    ensures ScanInt(Text(i)) == Some(i)
  {
    if i < 0 {
      assert Text(i)[1..] == Digits(-i);
      ScanDigitsOf(-i, -1);
    } else {
      assert IsDigit(Text(i)[0]);
      ScanDigitsOf(i, 1);
    }
  }

  lemma TextIsWord(i: int)
    ensures IsWord(Text(i)) && Text(i)[0] != '['
  {
    var digits := Digits(if i < 0 then -i else i);
    assert Text(i) == if i < 0 then "-" + digits else digits;
    assert forall k :: 0 <= k < |digits| ==> IsDigit(digits[k]);
    forall k | 0 <= k < |Text(i)| ensures !IsDelimiter(Text(i)[k]) {
      if i < 0 && k > 0 { assert Text(i)[k] == digits[k - 1]; }
    }
  }
}
