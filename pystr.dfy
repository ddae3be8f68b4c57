/**
 * The Python `str` built-ins the bot's core relies on: `strip()`, `lower()`,
 * `isalnum()`, `sep.join(parts)`, `str(n)` for integers and `int(s)`.
 *
 * Characters are Unicode scalar values. Whitespace is exactly the set that
 * `str.isspace()` accepts; `int()` skips that set less U+001C..U+001F. Case mapping and the alphanumeric class are given
 * for the scripts the question bank uses (ASCII, Latin-1 and the basic
 * Cyrillic block); every other character is its own lower case and is not
 * alphanumeric in this model.
 */
module PyStr {
  import opened Wrappers

  /** `c.isspace()`: the characters `str.strip()` removes. */
  predicate IsSpace(c: char) {
    || c == ' '
    || ('\t' <= c <= '\r')
    || ('\U{1C}' <= c <= '\U{1F}')
    || c == '\U{85}' || c == '\U{A0}' || c == '\U{1680}'
    || ('\U{2000}' <= c <= '\U{200A}')
    || c == '\U{2028}' || c == '\U{2029}' || c == '\U{202F}' || c == '\U{205F}'
    || c == '\U{3000}'
  }

  predicate IsDigit(c: char) {
    '0' <= c <= '9'
  }

  /** Upper-case letters of the modelled scripts. */
  predicate IsUpper(c: char) {
    || ('A' <= c <= 'Z')
    || ('\U{C0}' <= c <= '\U{DE}' && c != '\U{D7}')
    || ('\U{400}' <= c <= '\U{42F}')
  }

  /** `c.isalnum()` restricted to the modelled scripts. */
  predicate IsAlnum(c: char) {
    || IsDigit(c)
    || ('a' <= c <= 'z')
    || IsUpper(c)
    || c == '\U{AA}' || c == '\U{B2}' || c == '\U{B3}' || c == '\U{B5}'
    || c == '\U{B9}' || c == '\U{BA}' || ('\U{BC}' <= c <= '\U{BE}')
    || ('\U{DF}' <= c <= '\U{FF}' && c != '\U{F7}')
    || ('\U{430}' <= c <= '\U{45F}')
  }

  /** `c.lower()` for one character. */
  function Lower(c: char): (r: char)
    ensures IsUpper(c) <==> r != c
    ensures !IsUpper(r)
    ensures IsAlnum(r) <==> IsAlnum(c)
  {
    if 'A' <= c <= 'Z' || ('\U{C0}' <= c <= '\U{DE}' && c != '\U{D7}') || ('\U{410}' <= c <= '\U{42F}') then
      (c as int + 32) as char
    else if '\U{400}' <= c <= '\U{40F}' then
      (c as int + 80) as char
    else
      c
  }

  /** `s.lower()`, character by character. */
  function LowerStr(s: string): (r: string)
    ensures |r| == |s|
  {
    if s == [] then [] else [Lower(s[0])] + LowerStr(s[1..])
  }

  /** `s.lower()[i] == s[i].lower()`. */
  lemma {:induction false} LowerStrAt(s: string)
    ensures forall i :: 0 <= i < |s| ==> LowerStr(s)[i] == Lower(s[i])
  {
    if s != [] {
      LowerStrAt(s[1..]);
    }
  }

  /** Lower-casing turns no character into whitespace and none out of it. */
  lemma LowerKeepsSpace(c: char)
    ensures IsSpace(Lower(c)) <==> IsSpace(c)
  {
  }

  /** `s.lower()` keeps a string free of whitespace at its ends. */
  lemma LowerTrimmed(s: string)
    requires Trimmed(s)
    ensures Trimmed(LowerStr(s))
  {
    if s != [] {
      LowerStrAt(s);
      LowerKeepsSpace(s[0]);
      LowerKeepsSpace(s[|s| - 1]);
    }
  }

  /** `s.lower().lower() == s.lower()`. */
  lemma LowerStrIdempotent(s: string)
    ensures LowerStr(LowerStr(s)) == LowerStr(s)
  {
    LowerStrAt(s);
    LowerStrAt(LowerStr(s));
  }

  lemma LowerStrAppend(a: string, b: string)
    ensures LowerStr(a + b) == LowerStr(a) + LowerStr(b)
  {
    LowerStrAt(a + b);
    LowerStrAt(a);
    LowerStrAt(b);
  }

  predicate AllSpace(s: string) {
    forall i :: 0 <= i < |s| ==> IsSpace(s[i])
  }

  /** No whitespace at either end. */
  predicate Trimmed(s: string) {
    s == [] || (!IsSpace(s[0]) && !IsSpace(s[|s| - 1]))
  }

  /** `s.lstrip()`: the suffix left after dropping leading whitespace. */
  function StripLeft(s: string): (r: string)
    ensures |r| <= |s|
  {
    if s != [] && IsSpace(s[0]) then StripLeft(s[1..]) else s
  }

  lemma {:induction false} StripLeftSpec(s: string)
    ensures StripLeft(s) == s[|s| - |StripLeft(s)|..]
    ensures AllSpace(s[..|s| - |StripLeft(s)|])
    ensures StripLeft(s) != [] ==> !IsSpace(StripLeft(s)[0])
  {
    if s != [] && IsSpace(s[0]) {
      StripLeftSpec(s[1..]);
    }
  }

  /** `s.rstrip()`: the prefix left after dropping trailing whitespace. */
  function StripRight(s: string): (r: string)
    ensures |r| <= |s|
  {
    if s != [] && IsSpace(s[|s| - 1]) then StripRight(s[..|s| - 1]) else s
  }

  lemma {:induction false} StripRightSpec(s: string)
    ensures StripRight(s) == s[..|StripRight(s)|]
    ensures AllSpace(s[|StripRight(s)|..])
    ensures StripRight(s) != [] ==> !IsSpace(StripRight(s)[|StripRight(s)| - 1])
  {
    if s != [] && IsSpace(s[|s| - 1]) {
      StripRightSpec(s[..|s| - 1]);
    }
  }

  /** `s.strip()`. */
  function Strip(s: string): string {
    StripRight(StripLeft(s))
  }

  /** `strip()` leaves no whitespace at either end. */
  lemma StripTrimmed(s: string)
    ensures Trimmed(Strip(s))
  {
    var l := StripLeft(s);
    StripLeftSpec(s);
    StripRightSpec(l);
    if Strip(s) != [] {
      assert Strip(s)[0] == l[0];
    }
  }

  /** A string without whitespace at its ends is its own `strip()`. */
  lemma TrimmedStrip(s: string)
    requires Trimmed(s)
    ensures Strip(s) == s
  {
    assert StripLeft(s) == s;
  }

  /**
   * What `strip()` removed: `s` is the result with a run of whitespace before
   * it and a run of whitespace after it.
   */
  lemma StripParts(s: string) returns (p: nat)
    ensures p + |Strip(s)| <= |s|
    ensures s == s[..p] + Strip(s) + s[p + |Strip(s)|..]
    ensures AllSpace(s[..p]) && AllSpace(s[p + |Strip(s)|..])
  {
    var l := StripLeft(s);
    var r := StripRight(l);
    StripLeftSpec(s);
    StripRightSpec(l);
    p := |s| - |l|;
    var tail := l[|r|..];
    assert l == r + tail;
    assert s[p + |r|..] == tail;
    calc {
      s;
      s[..p] + l;
      s[..p] + (r + tail);
      s[..p] + r + tail;
    }
  }

  lemma {:induction false} StripLeftOfSpaces(a: string, s: string)
    requires AllSpace(a)
    ensures StripLeft(a + s) == StripLeft(s)
  {
    if a == [] {
      assert a + s == s;
    } else {
      assert (a + s)[0] == a[0] && IsSpace(a[0]);
      assert (a + s)[1..] == a[1..] + s;
      StripLeftOfSpaces(a[1..], s);
    }
  }

  lemma {:induction false} StripRightOfSpaces(s: string, b: string)
    requires AllSpace(b)
    ensures StripRight(s + b) == StripRight(s)
  {
    if b == [] {
      assert s + b == s;
    } else {
      assert (s + b)[|s + b| - 1] == b[|b| - 1] && IsSpace(b[|b| - 1]);
      assert (s + b)[..|s + b| - 1] == s + b[..|b| - 1];
      StripRightOfSpaces(s, b[..|b| - 1]);
    }
  }

  /** Trailing text after a non-blank string survives `lstrip()`. */
  lemma {:induction false} StripLeftAppend(s: string, b: string)
    requires StripLeft(s) != []
    ensures StripLeft(s + b) == StripLeft(s) + b
  {
    assert s != [] && (s + b)[0] == s[0];
    if IsSpace(s[0]) {
      assert (s + b)[1..] == s[1..] + b;
      StripLeftAppend(s[1..], b);
    } else {
      assert StripLeft(s) == s;
    }
  }

  /** Whitespace around a string does not change what `strip()` returns. */
  lemma StripIgnoresPadding(a: string, s: string, b: string)
    requires AllSpace(a) && AllSpace(b)
    ensures Strip(a + s + b) == Strip(s)
  {
    assert a + s + b == a + (s + b);
    StripLeftOfSpaces(a, s + b);
    if StripLeft(s) == [] {
      assert AllSpace(s + b) by {
        StripLeftSpec(s);
        assert s == s[..|s| - |StripLeft(s)|];
      }
      StripLeftOfSpaces(s + b, []);
      assert s + b + [] == s + b;
    } else {
      StripLeftAppend(s, b);
      StripRightOfSpaces(StripLeft(s), b);
    }
  }

  /** `strip()` is idempotent. */
  lemma StripIdempotent(s: string)
    ensures Strip(Strip(s)) == Strip(s)
  {
    StripTrimmed(s);
    TrimmedStrip(Strip(s));
  }

  /** `s.strip().lower()`: how the bot reads topics, subcommands and stop words. */
  function StripLower(s: string): string {
    LowerStr(Strip(s))
  }

  /** `strip().lower()` twice is `strip().lower()` once. */
  lemma StripLowerIdempotent(s: string)
    ensures StripLower(StripLower(s)) == StripLower(s)
  {
    StripTrimmed(s);
    LowerTrimmed(Strip(s));
    TrimmedStrip(StripLower(s));
    LowerStrIdempotent(Strip(s));
  }

  /** Python's slice `s[:k]`; a negative `k` counts from the end. */
  function Take<T>(s: seq<T>, k: int): (r: seq<T>)
    ensures |r| <= |s| && r == s[..|r|]
    ensures 0 <= k <= |s| ==> |r| == k
  {
    if k >= |s| then s
    else if k >= 0 then s[..k]
    else if |s| + k >= 0 then s[..|s| + k]
    else []
  }

  /** `sep.join(parts)`. */
  function Join(sep: string, parts: seq<string>): (r: string)
    ensures |parts| == 1 ==> r == parts[0]
  {
    if |parts| == 0 then ""
    else if |parts| == 1 then parts[0]
    else parts[0] + sep + Join(sep, parts[1..])
  }

  function DigitChar(d: nat): (c: char)
    requires d < 10
    ensures IsDigit(c)
  {
    ('0' as int + d) as char
  }

  function DigitValue(c: char): nat
    requires IsDigit(c)
  {
    c as int - '0' as int
  }

  /** `str(n)` for `n >= 0`: decimal digits without leading zeros. */
  function NatToDecimal(n: nat): (r: string)
    ensures |r| >= 1
    ensures forall i :: 0 <= i < |r| ==> IsDigit(r[i])
    ensures r[0] == '0' ==> n == 0
  {
    if n < 10 then [DigitChar(n)] else NatToDecimal(n / 10) + [DigitChar(n % 10)]
  }

  /** `str(n)` for any Python `int`. */
  function IntToString(n: int): (r: string)
    ensures r != [] && Trimmed(r)
  {
    if n < 0 then "-" + NatToDecimal(-n) else NatToDecimal(n)
  }

  /**
   * The digit part accepted by `int(s)` in base 10: ASCII digits, with single
   * underscores allowed between two digits.
   */
  predicate ValidDigits(d: string) {
    && |d| > 0
    && IsDigit(d[0])
    && (forall i :: 0 <= i < |d| ==> IsDigit(d[i]) || d[i] == '_')
    && (forall i :: 0 <= i < |d| && d[i] == '_' ==> 0 < i < |d| - 1 && IsDigit(d[i + 1]))
  }

  /** The number the digits of `d` spell, underscores ignored. */
  function DigitsValue(d: string): nat
    requires forall i :: 0 <= i < |d| ==> IsDigit(d[i]) || d[i] == '_'
  {
    if d == [] then 0
    else if d[|d| - 1] == '_' then DigitsValue(d[..|d| - 1])
    else DigitsValue(d[..|d| - 1]) * 10 + DigitValue(d[|d| - 1])
  }

  /**
   * The information separators U+001C..U+001F: `str.isspace()` accepts them,
   * but `int()` keeps ASCII characters as they are and skips only ASCII
   * whitespace among them, so it rejects these.
   */
  predicate IsInfoSeparator(c: char) {
    '\U{1C}' <= c <= '\U{1F}'
  }

  /** The whitespace `int()` skips around a number. */
  predicate IsIntSpace(c: char) {
    IsSpace(c) && !IsInfoSeparator(c)
  }

  /** No whitespace `int()` skips at either end. */
  predicate IntTrimmed(s: string) {
    s == [] || (!IsIntSpace(s[0]) && !IsIntSpace(s[|s| - 1]))
  }

  function IntStripLeft(s: string): (r: string)
    ensures |r| <= |s|
  {
    if s != [] && IsIntSpace(s[0]) then IntStripLeft(s[1..]) else s
  }

  function IntStripRight(s: string): (r: string)
    ensures |r| <= |s| && r == s[..|r|]
  {
    if s != [] && IsIntSpace(s[|s| - 1]) then IntStripRight(s[..|s| - 1]) else s
  }

  /** The text `int()` parses: `s` without the whitespace it skips at both ends. */
  function IntStrip(s: string): string {
    IntStripRight(IntStripLeft(s))
  }

  predicate NoInfoSeparators(s: string) {
    forall i :: 0 <= i < |s| ==> !IsInfoSeparator(s[i])
  }

  lemma {:induction false} IntStripLeftIsStripLeft(s: string)
    requires NoInfoSeparators(s)
    ensures IntStripLeft(s) == StripLeft(s)
  {
    if s != [] && IsSpace(s[0]) {
      var rest := s[1..];
      assert NoInfoSeparators(rest) by {
        forall i | 0 <= i < |rest| ensures !IsInfoSeparator(rest[i]) {
          assert rest[i] == s[i + 1];
        }
      }
      IntStripLeftIsStripLeft(s[1..]);
    }
  }

  lemma {:induction false} IntStripRightIsStripRight(s: string)
    requires NoInfoSeparators(s)
    ensures IntStripRight(s) == StripRight(s)
  {
    if s != [] && IsSpace(s[|s| - 1]) {
      var init := s[..|s| - 1];
      assert NoInfoSeparators(init) by {
        forall i | 0 <= i < |init| ensures !IsInfoSeparator(init[i]) {
          assert init[i] == s[i];
        }
      }
      IntStripRightIsStripRight(s[..|s| - 1]);
    }
  }

  /**
   * Without information separators, what `int()` skips is exactly what
   * `strip()` removes.
   */
  lemma IntStripIsStrip(s: string)
    requires NoInfoSeparators(s)
    ensures IntStrip(s) == Strip(s)
  {
    IntStripLeftIsStripLeft(s);
    var l := StripLeft(s);
    StripLeftSpec(s);
    assert NoInfoSeparators(l) by {
      forall i | 0 <= i < |l| ensures !IsInfoSeparator(l[i]) {
        assert l[i] == s[|s| - |l| + i];
      }
    }
    IntStripRightIsStripRight(l);
  }

  /** A leading information separator makes `int()` fail, though `strip()` drops it. */
  lemma InfoSeparatorRejected(s: string)
    requires s != [] && IsInfoSeparator(s[0])
    ensures ParseInt(s).None?
    ensures IsSpace(s[0])
  {
    assert IntStripLeft(s) == s;
    var t := IntStrip(s);
    if t != [] {
      assert t[0] == s[0];
    }
  }

  /**
   * `int(s)`: surrounding whitespace, an optional sign, then digits; anything
   * else raises `ValueError`, modelled as `None`.
   */
  function ParseInt(s: string): Option<int> {
    ParseSigned(IntStrip(s))
  }

  /** An optional sign followed by the digit part. */
  function ParseSigned(t: string): Option<int> {
    if t != [] && (t[0] == '-' || t[0] == '+') then
      if !ValidDigits(t[1..]) then None
      else if t[0] == '-' then Some(-(DigitsValue(t[1..]) as int))
      else Some(DigitsValue(t[1..]))
    else if ValidDigits(t) then Some(DigitsValue(t))
    else None
  }

  lemma {:induction false} NatToDecimalParses(n: nat)
    ensures ValidDigits(NatToDecimal(n))
    ensures DigitsValue(NatToDecimal(n)) == n
  {
    var d := NatToDecimal(n);
    if n >= 10 {
      NatToDecimalParses(n / 10);
      assert d[..|d| - 1] == NatToDecimal(n / 10);
    }
  }

  /** On text without whitespace `int()` skips at its ends, `int()` is the bare signed-digit parse. */
  lemma TrimmedParse(s: string)
    requires IntTrimmed(s)
    ensures ParseInt(s) == ParseSigned(s)
  {
    assert IntStripLeft(s) == s;
  }

  lemma DecimalParsesSigned(n: nat)
    ensures ParseSigned(NatToDecimal(n)) == Some(n)
  {
    var d := NatToDecimal(n);
    NatToDecimalParses(n);
    assert IsDigit(d[0]);
    assert d[0] != '-' && d[0] != '+';
  }

  lemma NegDecimalParsesSigned(n: nat)
    ensures ParseSigned("-" + NatToDecimal(n)) == Some(-(n as int))
  {
    var d := NatToDecimal(n);
    NatToDecimalParses(n);
    assert ("-" + d)[1..] == d;
  }

  /** `int(str(n)) == n`: every integer the bot prints can be read back. */
  lemma IntToStringRoundTrip(n: int)
    ensures ParseInt(IntToString(n)) == Some(n)
  {
    var s := IntToString(n);
    TrimmedParse(s);
    if n < 0 {
      NegDecimalParsesSigned(-n);
      assert s == "-" + NatToDecimal(-n);
    } else {
      DecimalParsesSigned(n);
      assert s == NatToDecimal(n);
    }
  }
}
