/** The JavaScript string operations the handlers rely on: `trim`,
    `substring(0, n)`, `toLowerCase`, `includes`, `startsWith`, `parseInt`
    and number-to-string conversion, over strings as sequences of characters. */
module Text {
  import opened Common

  /** The characters `String.prototype.trim` removes: ECMAScript's white
      space (tab, vertical tab, form feed, the no-break and byte-order marks
      and the space separators of Unicode) and its line terminators. */
  predicate IsSpace(c: char) {
    '\t' <= c <= '\r' || c == ' ' || c == '\U{00A0}' || c == '\U{1680}'
    || '\U{2000}' <= c <= '\U{200A}' || c == '\U{2028}' || c == '\U{2029}'
    || c == '\U{202F}' || c == '\U{205F}' || c == '\U{3000}' || c == '\U{FEFF}'
  }

  predicate AllSpace(s: string) {
    forall k :: 0 <= k < |s| ==> IsSpace(s[k])
  }

  /** Drops leading white space. */
  function TrimStart(s: string): (r: string)
    ensures |r| <= |s|
  {
    if s == [] || !IsSpace(s[0]) then s else TrimStart(s[1..])
  }

  /** What `TrimStart` keeps is a suffix of `s` that does not start with a
      space, and everything it dropped was a space. */
  lemma {:induction false} TrimStartSpec(s: string)
    ensures var r := TrimStart(s);
            && r == s[|s| - |r|..]
            && (r == [] || !IsSpace(r[0]))
            && AllSpace(s[..|s| - |r|])
  {
    if s != [] && IsSpace(s[0]) {
      var r := TrimStart(s[1..]);
      TrimStartSpec(s[1..]);
      assert s[1..][|s| - 1 - |r|..] == s[|s| - |r|..];
      SpaceThenSpaces(s, |s| - |r|);
    } else {
      assert s[..0] == [];
    }
  }

  /** A space followed by `n - 1` spaces is `n` spaces. */
  lemma SpaceThenSpaces(s: string, n: nat)
    requires 1 <= n <= |s| && IsSpace(s[0]) && AllSpace(s[1..][..n - 1])
    ensures AllSpace(s[..n])
  {
    forall k | 0 <= k < n ensures IsSpace(s[k]) {
      if k > 0 { assert s[k] == s[1..][..n - 1][k - 1]; }
    }
  }

  /** Drops trailing white space. */
  function TrimEnd(s: string): (r: string)
    ensures |r| <= |s|
  {
    if s == [] || !IsSpace(s[|s| - 1]) then s else TrimEnd(s[..|s| - 1])
  }

  /** What `TrimEnd` keeps is a prefix of `s` that does not end with a
      space, and everything it dropped was a space. */
  lemma {:induction false} TrimEndSpec(s: string)
    ensures var r := TrimEnd(s);
            && r == s[..|r|]
            && (r == [] || !IsSpace(r[|r| - 1]))
            && AllSpace(s[|r|..])
  {
    if s != [] && IsSpace(s[|s| - 1]) {
      var r := TrimEnd(s[..|s| - 1]);
      TrimEndSpec(s[..|s| - 1]);
      assert s[..|s| - 1][..|r|] == s[..|r|];
      SpacesThenSpace(s, |r|);
    } else {
      assert s[..|s|] == s;
    }
  }

  /** `n` spaces after position `i`, the last of them at the end, are spaces. */
  lemma SpacesThenSpace(s: string, i: nat)
    requires i < |s| && IsSpace(s[|s| - 1]) && AllSpace(s[..|s| - 1][i..])
    ensures AllSpace(s[i..])
  {
    forall k | 0 <= k < |s| - i ensures IsSpace(s[i..][k]) {
      if i + k < |s| - 1 { assert s[i..][k] == s[..|s| - 1][i..][k]; }
    }
  }

  /** Trimming the end of a string whose last non-space is at `i`. */
  lemma {:induction false} TrimEndAt(s: string, i: nat)
    requires i < |s| && !IsSpace(s[i])
    requires forall k :: i < k < |s| ==> IsSpace(s[k])
    ensures TrimEnd(s) == s[..i + 1]
  {
    if |s| > i + 1 {
      TrimEndAt(s[..|s| - 1], i);
      assert s[..|s| - 1][..i + 1] == s[..i + 1];
    }
  }

  /** `s.trim()` */
  function Trim(s: string): string {
    TrimEnd(TrimStart(s))
  }

  /** `!s.trim()`: a string is blank exactly when it consists of spaces only. */
  lemma TrimEmptyIffAllSpace(s: string)
    ensures Trim(s) == [] <==> AllSpace(s)
  {
    var t := TrimStart(s);
    TrimStartSpec(s);
    TrimEndSpec(t);
    if Trim(s) == [] {
      assert t[0..] == t;
      assert t == [];
      assert s[..|s|] == s;
    }
  }

  // ---------------------------------------------------------------- lengths

  /** JavaScript strings are sequences of UTF-16 code units: a character
      outside the Basic Multilingual Plane takes two (a surrogate pair). */
  function Units(c: char): (u: nat)
    ensures 1 <= u <= 2
  {
    if c as int >= 0x1_0000 then 2 else 1
  }

  /** `s.length`: the number of UTF-16 code units of `s`. */
  function Utf16Length(s: string): (n: nat)
    ensures |s| <= n <= 2 * |s|
  {
    if s == [] then 0 else Units(s[0]) + Utf16Length(s[1..])
  }

  /** Lengths add up under concatenation. */
  lemma {:induction false} Utf16LengthAppend(a: string, b: string)
    ensures Utf16Length(a + b) == Utf16Length(a) + Utf16Length(b)
  {
    if a != [] {
      assert (a + b)[1..] == a[1..] + b;
      Utf16LengthAppend(a[1..], b);
    } else {
      assert a + b == b;
    }
  }

  /** Every character of `s` is in the Basic Multilingual Plane. */
  predicate Bmp(s: string) {
    forall k :: 0 <= k < |s| ==> Units(s[k]) == 1
  }

  /** Every character of `s` is outside the Basic Multilingual Plane. */
  predicate Astral(s: string) {
    forall k :: 0 <= k < |s| ==> Units(s[k]) == 2
  }

  /** On the Basic Multilingual Plane the length counts characters. */
  lemma {:induction false} BmpLength(s: string)
    requires Bmp(s)
    ensures Utf16Length(s) == |s|
  {
    if s != [] {
      assert Units(s[0]) == 1;
      BmpLength(s[1..]);
    }
  }

  /** Outside it the length counts two units per character. */
  lemma {:induction false} AstralLength(s: string)
    requires Astral(s)
    ensures Utf16Length(s) == 2 * |s|
  {
    if s != [] {
      assert Units(s[0]) == 2;
      AstralLength(s[1..]);
    }
  }

  /** Trimming never makes a string longer. */
  lemma TrimShortens(s: string)
    ensures Utf16Length(Trim(s)) <= Utf16Length(s)
  {
    var t := TrimStart(s);
    TrimStartSpec(s);
    assert s == s[..|s| - |t|] + t;
    Utf16LengthAppend(s[..|s| - |t|], t);
    var r := TrimEnd(t);
    TrimEndSpec(t);
    assert t == r + t[|r|..];
    Utf16LengthAppend(r, t[|r|..]);
  }

  /** `s.substring(0, n)` for n >= 0: the longest prefix of `s` that fits in
      `n` code units, so all of `s` when it fits. */
  function Prefix(s: string, n: nat): (r: string)
    ensures r <= s
    ensures Utf16Length(r) <= n
    ensures r == s || Utf16Length(r) + Units(s[|r|]) > n
    ensures Utf16Length(s) <= n ==> r == s
  {
    if s == [] || Units(s[0]) > n then []
    else
      var rest := Prefix(s[1..], n - Units(s[0]));
      assert ([s[0]] + rest)[1..] == rest;
      [s[0]] + rest
  }

  /** On the Basic Multilingual Plane the prefix is the first `n`
      characters. */
  lemma {:induction false} BmpPrefix(s: string, n: nat)
    requires Bmp(s)
    ensures Prefix(s, n) == if |s| <= n then s else s[..n]
  {
    if s != [] && n > 0 {
      assert Units(s[0]) == 1;
      var tail := s[1..];
      assert Prefix(s, n) == [s[0]] + Prefix(tail, n - 1);
      assert Bmp(tail) by {
        forall k | 0 <= k < |tail| ensures Units(tail[k]) == 1 { assert tail[k] == s[k + 1]; }
      }
      BmpPrefix(tail, n - 1);
      if |s| > n { assert s[..n] == [s[0]] + tail[..n - 1]; } else { assert s == [s[0]] + tail; }
    }
  }

  /** Outside it the prefix that fits in `2m` code units is the first `m`
      characters. */
  lemma {:induction false} AstralPrefix(s: string, m: nat)
    requires Astral(s)
    ensures Prefix(s, 2 * m) == if |s| <= m then s else s[..m]
  {
    if s != [] && m > 0 {
      var tail := s[1..];
      assert Astral(tail) by {
        forall k | 0 <= k < |tail| ensures Units(tail[k]) == 2 { assert tail[k] == s[k + 1]; }
      }
      AstralPrefix(tail, m - 1);
      AstralPrefixStep(s, m);
    } else if s != [] {
      assert Units(s[0]) == 2;
    }
  }

  /** One step of the above: the first character, then the rest's prefix. */
  lemma AstralPrefixStep(s: string, m: nat)
    requires s != [] && m > 0 && Units(s[0]) == 2
    requires Prefix(s[1..], 2 * (m - 1)) == if |s| - 1 <= m - 1 then s[1..] else s[1..][..m - 1]
    ensures Prefix(s, 2 * m) == if |s| <= m then s else s[..m]
  {
    assert Prefix(s, 2 * m) == [s[0]] + Prefix(s[1..], 2 * (m - 1));
    if |s| > m { assert s[..m] == [s[0]] + s[1..][..m - 1]; } else { assert s == [s[0]] + s[1..]; }
  }

  // ---------------------------------------------------------------- case

  /** The lower-case partner of an upper-case letter of the Latin, Latin-1,
      basic Greek and Cyrillic alphabets, each a fixed distance away; every
      other character is left alone. */
  function LowerChar(c: char): char {
    if 'A' <= c <= 'Z' || ('\U{00C0}' <= c <= '\U{00DE}' && c != '\U{00D7}')
       || ('\U{0391}' <= c <= '\U{03AB}' && c != '\U{03A2}') || '\U{0410}' <= c <= '\U{042F}'
    then (c as int + 32) as char
    else if '\U{0400}' <= c <= '\U{040F}' then (c as int + 80) as char
    else c
  }

  /** `s.toLowerCase()`, letter by letter. */
  function ToLower(s: string): (r: string)
    ensures |r| == |s|
    ensures forall k :: 0 <= k < |s| ==> r[k] == LowerChar(s[k])
  {
    seq(|s|, k requires 0 <= k < |s| => LowerChar(s[k]))
  }

  /** `hay.includes(needle)` */
  predicate Contains(hay: string, needle: string) {
    exists i :: 0 <= i <= |hay| - |needle| && OccursAt(hay, needle, i)
  }

  /** `needle` occurs in `hay` starting at position `i`. */
  predicate OccursAt(hay: string, needle: string, i: int) {
    0 <= i <= |hay| - |needle| && hay[i..i + |needle|] == needle
  }

  /** `s.startsWith(p)` */
  predicate StartsWith(s: string, p: string) {
    |p| <= |s| && s[..|p|] == p
  }

  function DigitChar(d: nat): (c: char)
    requires d < 10
    ensures '0' <= c <= '9' && DigitValue(c) == d
  {
    ('0' as int + d) as char
  }

  /** `String(n)` for a natural number: its decimal digits. */
  function NatToString(n: nat): (r: string)
    ensures |r| >= 1
    ensures forall k :: 0 <= k < |r| ==> '0' <= r[k] <= '9'
    ensures n >= 10 ==> r[0] != '0'
  {
    if n < 10 then [DigitChar(n)] else NatToString(n / 10) + [DigitChar(n % 10)]
  }

  function DigitValue(c: char): nat
    requires '0' <= c <= '9'
  {
    c as int - '0' as int
  }

  /** The value of a run of decimal digits. */
  function DigitsValue(s: string): nat
    requires forall k :: 0 <= k < |s| ==> '0' <= s[k] <= '9'
  {
    if s == [] then 0 else DigitsValue(s[..|s| - 1]) * 10 + DigitValue(s[|s| - 1])
  }

  /** Reading back the digits of `NatToString(n)` gives `n`. */
  lemma {:induction false} NatToStringRoundTrip(n: nat)
    ensures DigitsValue(NatToString(n)) == n
  {
    if n >= 10 {
      var r := NatToString(n);
      assert r[..|r| - 1] == NatToString(n / 10);
      NatToStringRoundTrip(n / 10);
      assert n == (n / 10) * 10 + n % 10;
    }
  }

  /** The longest prefix of `s` made of decimal digits. */
  function LeadingDigits(s: string): (r: string)
    ensures r <= s
    ensures forall k :: 0 <= k < |r| ==> '0' <= r[k] <= '9'
    ensures |r| == |s| || !('0' <= s[|r|] <= '9')
  {
    if s == [] || !('0' <= s[0] <= '9') then [] else [s[0]] + LeadingDigits(s[1..])
  }

  /** What follows an optional leading sign. */
  function Unsigned(t: string): (body: string)
    ensures body == t || (t != [] && body == t[1..])
  {
    if t != [] && (t[0] == '-' || t[0] == '+') then t[1..] else t
  }

  /** `parseInt(s, 10)`: leading white space, an optional sign, then the
      longest run of decimal digits; `None` stands for NaN (no digit at all). */
  function ParseInt10(s: string): Option<int> {
    var t := TrimStart(s);
    var negative := t != [] && t[0] == '-';
    var digits := LeadingDigits(Unsigned(t));
    if digits == [] then None
    else Some(if negative then -(DigitsValue(digits) as int) else DigitsValue(digits) as int)
  }

  /** The text after the sign starts with `0x` or `0X`. */
  predicate HexPrefixed(body: string) {
    |body| >= 2 && body[0] == '0' && (body[1] == 'x' || body[1] == 'X')
  }

  predicate IsHexDigit(c: char) {
    '0' <= c <= '9' || 'a' <= c <= 'f' || 'A' <= c <= 'F'
  }

  function HexDigitValue(c: char): (v: nat)
    requires IsHexDigit(c)
    ensures v < 16
  {
    if c <= '9' then c as int - '0' as int
    else if c <= 'F' then c as int - 'A' as int + 10
    else c as int - 'a' as int + 10
  }

  /** The value of a run of hexadecimal digits. */
  function HexValue(s: string): nat
    requires forall k :: 0 <= k < |s| ==> IsHexDigit(s[k])
  {
    if s == [] then 0 else HexValue(s[..|s| - 1]) * 16 + HexDigitValue(s[|s| - 1])
  }

  /** The longest prefix of `s` made of hexadecimal digits. */
  function LeadingHexDigits(s: string): (r: string)
    ensures r <= s
    ensures forall k :: 0 <= k < |r| ==> IsHexDigit(r[k])
    ensures |r| == |s| || !IsHexDigit(s[|r|])
  {
    if s == [] || !IsHexDigit(s[0]) then [] else [s[0]] + LeadingHexDigits(s[1..])
  }

  /** `parseInt(s)` without a radix: as `parseInt(s, 10)`, except that a
      `0x` or `0X` after the sign selects base 16 and the longest run of
      hexadecimal digits behind it. */
  function ParseInt(s: string): Option<int> {
    var t := TrimStart(s);
    var body := Unsigned(t);
    if HexPrefixed(body) then
      var digits := LeadingHexDigits(body[2..]);
      if digits == [] then None
      else Some(if t[0] == '-' then -(HexValue(digits) as int) else HexValue(digits) as int)
    else ParseInt10(s)
  }

  /** `0x` and hexadecimal digits: without a radix they read in base 16,
      with radix 10 as the zero before the `x`. */
  lemma ParseIntOfHex(d: string)
    requires d != [] && forall k :: 0 <= k < |d| ==> IsHexDigit(d[k])
    ensures ParseInt("0x" + d) == Some(HexValue(d) as int)
    ensures ParseInt10("0x" + d) == Some(0)
  {
    var s := "0x" + d;
    HexPrefixedBody(s);
    assert s[2..] == d;
    AllHexLeading(d);
    ZeroBeforeX(s);
  }

  /** A string that starts with `0x` is its own unsigned body. */
  lemma HexPrefixedBody(s: string)
    requires |s| >= 2 && s[0] == '0' && s[1] == 'x'
    ensures TrimStart(s) == s && Unsigned(s) == s && HexPrefixed(s)
  {
  }

  /** In base 10, `0x...` reads as 0. */
  lemma ZeroBeforeX(s: string)
    requires |s| >= 2 && s[0] == '0' && s[1] == 'x'
    ensures ParseInt10(s) == Some(0)
  {
    HexPrefixedBody(s);
    assert LeadingDigits(s[1..]) == [];
    assert LeadingDigits(s) == "0";
    assert DigitsValue("0") == 0;
  }

  lemma {:induction false} AllHexLeading(s: string)
    requires forall k :: 0 <= k < |s| ==> IsHexDigit(s[k])
    ensures LeadingHexDigits(s) == s
  {
    if s != [] { AllHexLeading(s[1..]); }
  }

  /** `parseInt(String(n))` gives back `n`, with or without radix 10. */
  lemma ParseIntOfNatToString(n: nat)
    ensures ParseInt(NatToString(n)) == Some(n)
    ensures ParseInt10(NatToString(n)) == Some(n)
  {
    ParseIntOfDigits(NatToString(n));
    NatToStringRoundTrip(n);
  }

  /** `String(n)` for an integer: a minus sign before the digits of a
      negative number. */
  function IntToString(n: int): (r: string)
    ensures |r| >= 1
  {
    if n < 0 then "-" + NatToString(-n) else NatToString(n)
  }

  /** `parseInt(String(n))` gives back `n`, negative numbers included. */
  lemma ParseIntOfIntToString(n: int)
    ensures ParseInt(IntToString(n)) == Some(n)
    ensures ParseInt10(IntToString(n)) == Some(n)
  {
    if n < 0 {
      var m: nat := -n;
      var d := NatToString(m);
      assert IntToString(n) == "-" + d;
      NatToStringRoundTrip(m);
      ParseIntOfNegative(d);
    } else {
      ParseIntOfNatToString(n);
    }
  }

  /** A minus sign before a non-empty run of digits parses to the negated
      value. */
  lemma ParseIntOfNegative(d: string)
    requires d != [] && forall k :: 0 <= k < |d| ==> '0' <= d[k] <= '9'
    ensures ParseInt("-" + d) == Some(-(DigitsValue(d) as int))
    ensures ParseInt10("-" + d) == Some(-(DigitsValue(d) as int))
  {
    ParseInt10OfNegative(d);
    MinusBody("-" + d, d);
    DigitsNotHex(d);
  }

  lemma ParseInt10OfNegative(d: string)
    requires d != [] && forall k :: 0 <= k < |d| ==> '0' <= d[k] <= '9'
    ensures ParseInt10("-" + d) == Some(-(DigitsValue(d) as int))
  {
    var s := "-" + d;
    assert s[1..] == d;
    AllDigitsLeading(d);
    ParseInt10OfSign(s, d);
  }

  lemma ParseInt10OfSign(s: string, d: string)
    requires s != [] && s[0] == '-' && d != [] && LeadingDigits(s[1..]) == d
    ensures ParseInt10(s) == Some(-(DigitsValue(d) as int))
  {
    assert TrimStart(s) == s;
  }

  lemma MinusBody(s: string, d: string)
    requires s == "-" + d
    ensures TrimStart(s) == s && Unsigned(s) == d
  {
    assert s[0] == '-' && s[1..] == d;
  }

  /** A run of decimal digits has no `x` after its first zero. */
  lemma DigitsNotHex(d: string)
    requires forall k :: 0 <= k < |d| ==> '0' <= d[k] <= '9'
    ensures !HexPrefixed(d)
  {
    if |d| >= 2 { assert '0' <= d[1] <= '9'; }
  }

  /** A non-empty run of digits parses to its value. */
  lemma ParseIntOfDigits(s: string)
    requires s != [] && forall k :: 0 <= k < |s| ==> '0' <= s[k] <= '9'
    ensures ParseInt(s) == Some(DigitsValue(s) as int)
    ensures ParseInt10(s) == Some(DigitsValue(s) as int)
  {
    NoSpaceTrimStart(s);
    AllDigitsLeading(s);
    assert LeadingDigits(s) == s;
    assert !(s[0] == '-' || s[0] == '+');
    DigitsNotHex(s);
  }

  lemma NoSpaceTrimStart(s: string)
    requires s != [] && '0' <= s[0] <= '9'
    ensures TrimStart(s) == s
  {
  }

  lemma {:induction false} AllDigitsLeading(s: string)
    requires forall k :: 0 <= k < |s| ==> '0' <= s[k] <= '9'
    ensures LeadingDigits(s) == s
  {
    if s != [] { AllDigitsLeading(s[1..]); }
  }

  /** A string with no digit at all parses to NaN, with or without radix 10. */
  lemma ParseIntNoDigits(s: string)
    requires forall k :: 0 <= k < |s| ==> !('0' <= s[k] <= '9')
    ensures ParseInt(s) == None
    ensures ParseInt10(s) == None
  {
    var t := TrimStart(s);
    TrimStartSpec(s);
    var body := Unsigned(t);
    assert forall k :: 0 <= k < |body| ==> !('0' <= body[k] <= '9') by {
      forall k | 0 <= k < |body| ensures !('0' <= body[k] <= '9') {
        if t != [] && (t[0] == '-' || t[0] == '+') {
          assert body[k] == s[|s| - |t| + 1 + k];
        } else {
          assert body[k] == s[|s| - |t| + k];
        }
      }
    }
  }
}
