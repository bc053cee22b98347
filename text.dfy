/** String operations the client and the server rely on: lower-casing and
    substring search (the equipment search box), JavaScript's `parseInt`
    (form payloads), Python's `int` on a query parameter, decimal rendering,
    and whitespace stripping (Django's `get_full_name`). */
module Text {
  import opened Options

  predicate IsAsciiUpper(c: char)
  {
    'A' <= c <= 'Z'
  }

  /** `toLowerCase` on one character, for the ASCII letters. */
  function LowerChar(c: char): char
  {
    if IsAsciiUpper(c) then (c as int + 32) as char else c
  }

  /** `toLowerCase` on a string: every character lower-cased, nothing else changed. */
  function ToLower(s: string): (r: string)
    ensures |r| == |s|
    ensures forall i :: 0 <= i < |s| ==> r[i] == LowerChar(s[i])
    ensures forall i :: 0 <= i < |r| ==> !IsAsciiUpper(r[i])
  {
    seq(|s|, i requires 0 <= i < |s| => LowerChar(s[i]))
  }

  /** `s.includes(sub)`: `sub` occurs in `s` as a contiguous block. */
  predicate Contains(s: string, sub: string)
    decreases |s|
  {
    |sub| <= |s| && (s[..|sub|] == sub || (|s| > 0 && Contains(s[1..], sub)))
  }

  /** `sub` occurs in `s` starting at position `i`. */
  predicate OccursAt(s: string, sub: string, i: int)
  {
    0 <= i <= |s| - |sub| && s[i..i + |sub|] == sub
  }

  /** An occurrence in the tail of `s` is an occurrence in `s`, one place later. */
  lemma OccursInTail(s: string, sub: string, i: int)
    requires |s| > 0
    ensures OccursAt(s[1..], sub, i) <==> 0 <= i && OccursAt(s, sub, i + 1)
  {
    if 0 <= i <= |s| - 1 - |sub| {
      assert s[1..][i..i + |sub|] == s[i + 1..i + 1 + |sub|];
    }
  }

  /** `Contains` agrees with the definition by an occurrence position. */
  lemma {:induction false} ContainsIffOccurs(s: string, sub: string)
    ensures Contains(s, sub) <==> exists i :: OccursAt(s, sub, i)
  {
    if |sub| <= |s| && s[..|sub|] == sub {
      assert OccursAt(s, sub, 0);
    } else if |sub| <= |s| && |s| > 0 {
      ContainsIffOccurs(s[1..], sub);
      if Contains(s[1..], sub) {
        var i :| OccursAt(s[1..], sub, i);
        OccursInTail(s, sub, i);
      } else {
        forall i | 0 <= i <= |s| - |sub|
          ensures !OccursAt(s, sub, i)
        {
          if i == 0 {
            assert s[..|sub|] == s[0..0 + |sub|];
          } else {
            OccursInTail(s, sub, i - 1);
          }
        }
      }
    }
  }

  /** The empty string occurs in every string. */
  lemma ContainsEmpty(s: string)
    ensures Contains(s, "")
  {
    assert s[..0] == "";
  }

  // ---------------------------------------------------------------------
  // Digits and numbers

  /** The value of `c` as a digit in base `radix` (2..36), if it is one. */
  function DigitOf(c: char, radix: nat): Option<nat>
  {
    var v :=
      if '0' <= c <= '9' then c as int - '0' as int
      else if 'a' <= c <= 'z' then c as int - 'a' as int + 10
      else if 'A' <= c <= 'Z' then c as int - 'A' as int + 10
      else radix;
    if v < radix then Some(v) else None
  }

  predicate AllDigits(s: string, radix: nat)
  {
    forall i :: 0 <= i < |s| ==> DigitOf(s[i], radix).Some?
  }

  /** How many characters at the front of `s` are digits in base `radix`. */
  function LeadingDigits(s: string, radix: nat): (n: nat)
    ensures n <= |s|
    ensures AllDigits(s[..n], radix)
    ensures n < |s| ==> DigitOf(s[n], radix).None?
  {
    if s == [] || DigitOf(s[0], radix).None? then 0
    else
      var n := 1 + LeadingDigits(s[1..], radix);
      assert s[..n] == [s[0]] + s[1..][..n - 1];
      n
  }

  /** The number written by the digits `ds`, most significant first. */
  function DigitsValue(ds: string, radix: nat): nat
    requires AllDigits(ds, radix)
  {
    if ds == [] then 0
    else DigitsValue(ds[..|ds| - 1], radix) * radix + DigitOf(ds[|ds| - 1], radix).value
  }

  /** The number written by the longest run of digits at the front of `s`; none if there is none. */
  function PrefixValue(s: string, radix: nat): Option<nat>
  {
    var n := LeadingDigits(s, radix);
    if n == 0 then None else Some(DigitsValue(s[..n], radix))
  }

  /** The character for a decimal digit. */
  function DigitChar(d: nat): (c: char)
    requires d < 10
    ensures DigitOf(c, 10) == Some(d)
  {
    ('0' as int + d) as char
  }

  /** The decimal rendering of `n` (JavaScript's `String(n)`, Python's `str(n)`), without leading zeros. */
  function NatToString(n: nat): (s: string)
    ensures |s| >= 1 && AllDigits(s, 10)
    ensures DigitsValue(s, 10) == n
  {
    if n < 10 then [DigitChar(n)]
    else
      var s := NatToString(n / 10) + [DigitChar(n % 10)];
      assert s[..|s| - 1] == NatToString(n / 10);
      s
  }

  function IntToString(i: int): string
  {
    if i < 0 then "-" + NatToString(-i) else NatToString(i)
  }

  /** A run made only of digits is all leading digits. */
  lemma {:induction false} LeadingDigitsOfDigits(s: string, radix: nat)
    requires AllDigits(s, radix)
    ensures LeadingDigits(s, radix) == |s|
  {
    if s != [] {
      LeadingDigitsOfDigits(s[1..], radix);
    }
  }

  // ---------------------------------------------------------------------
  // JavaScript parseInt

  /** The white space and line terminators that `parseInt` skips at the
      front: tab, vertical tab, form feed, the byte-order mark, every space
      separator (category Zs), and the line terminators LF, CR, U+2028 and
      U+2029. */
  predicate IsJsSpace(c: char)
  {
    (0x09 <= c as int <= 0x0D) || c as int == 0x20 || c as int == 0xA0 || c as int == 0x1680 ||
    (0x2000 <= c as int <= 0x200A) || c as int == 0x2028 || c as int == 0x2029 ||
    c as int == 0x202F || c as int == 0x205F || c as int == 0x3000 || c as int == 0xFEFF
  }

  /** Python's `str.isspace`: the ASCII white space and the separators
      U+001C to U+001F, NEL, every space separator (category Zs), and the
      line and paragraph separators. */
  predicate IsPySpace(c: char)
  {
    (0x09 <= c as int <= 0x0D) || (0x1C <= c as int <= 0x20) || c as int == 0x85 || c as int == 0xA0 ||
    c as int == 0x1680 || (0x2000 <= c as int <= 0x200A) || c as int == 0x2028 || c as int == 0x2029 ||
    c as int == 0x202F || c as int == 0x205F || c as int == 0x3000
  }

  /** `s` without its leading characters that satisfy `isSpace`. */
  function TrimStart(s: string, isSpace: char -> bool): (r: string)
    ensures |r| <= |s| && r == s[|s| - |r|..]
    ensures r == [] || !isSpace(r[0])
    ensures forall i :: 0 <= i < |s| - |r| ==> isSpace(s[i])
  {
    if s != [] && isSpace(s[0]) then
      var r := TrimStart(s[1..], isSpace);
      assert s[1..][|s| - 1 - |r|..] == s[|s| - |r|..];
      assert forall i :: 1 <= i < |s| - |r| ==> s[i] == s[1..][i - 1];
      r
    else s
  }

  /** A string that does not start with white space has none to trim. */
  lemma TrimStartOfNonSpace(s: string, isSpace: char -> bool)
    requires s == [] || !isSpace(s[0])
    ensures TrimStart(s, isSpace) == s
  {
  }

  /** `s` without its trailing characters that satisfy `isSpace`. */
  function TrimEnd(s: string, isSpace: char -> bool): (r: string)
    ensures |r| <= |s| && r == s[..|r|]
    ensures r == [] || !isSpace(r[|r| - 1])
    ensures forall i :: |r| <= i < |s| ==> isSpace(s[i])
  {
    if s != [] && isSpace(s[|s| - 1]) then TrimEnd(s[..|s| - 1], isSpace) else s
  }

  /** `r` occurs in `s` at offset `k`, and everything of `s` before and
      after that occurrence satisfies `isSpace`. */
  predicate InnerAt(s: string, r: string, k: nat, isSpace: char -> bool)
  {
    k + |r| <= |s| && r == s[k..k + |r|] &&
    (forall i :: 0 <= i < k ==> isSpace(s[i])) &&
    (forall i :: k + |r| <= i < |s| ==> isSpace(s[i]))
  }

  /** A prefix `t` of `s` whose removed head is white space, trimmed at its
      tail down to `r`, leaves `r` in the middle of `s`. */
  lemma InnerOfTrims(s: string, t: string, r: string, isSpace: char -> bool)
    requires |t| <= |s| && t == s[|s| - |t|..]
    requires forall i :: 0 <= i < |s| - |t| ==> isSpace(s[i])
    requires |r| <= |t| && r == t[..|r|]
    requires forall i :: |r| <= i < |t| ==> isSpace(t[i])
    ensures InnerAt(s, r, |s| - |t|, isSpace)
  {
    var k := |s| - |t|;
    assert r == s[k..k + |r|];
    forall i | k + |r| <= i < |s|
      ensures isSpace(s[i])
    {
      assert s[i] == t[i - k];
    }
  }

  /** Python's `str.strip()`: only surrounding white space is removed, and
      none is left at either end. */
  function Strip(s: string): (r: string)
    ensures |r| <= |s|
    ensures exists k: nat :: InnerAt(s, r, k, IsPySpace)
    ensures r == [] || (!IsPySpace(r[0]) && !IsPySpace(r[|r| - 1]))
    ensures (forall i :: 0 <= i < |s| ==> IsPySpace(s[i])) ==> r == []
  {
    var t := TrimStart(s, IsPySpace);
    var r := TrimEnd(t, IsPySpace);
    InnerOfTrims(s, t, r, IsPySpace);
    r
  }

  /** Stripping leaves a string that already has no surrounding white space as it is. */
  lemma StripOfTrimmed(s: string)
    requires s == [] || (!IsPySpace(s[0]) && !IsPySpace(s[|s| - 1]))
    ensures Strip(s) == s
  {
  }

  /** A lone space strips to nothing. */
  lemma StripOfSpace()
    ensures Strip(" ") == ""
  {
    var space := " ";
    assert forall i :: 0 <= i < |space| ==> IsPySpace(space[i]);
  }

  /** Stripping removes one leading space in front of a string with no surrounding white space. */
  lemma StripOfSpaceThen(s: string)
    requires s != [] && !IsPySpace(s[0]) && !IsPySpace(s[|s| - 1])
    ensures Strip(" " + s) == s
  {
    assert TrimStart(" " + s, IsPySpace) == s;
  }

  /** Stripping removes one trailing space behind a string with no surrounding white space. */
  lemma StripOfThenSpace(s: string)
    requires s != [] && !IsPySpace(s[0]) && !IsPySpace(s[|s| - 1])
    ensures Strip(s + " ") == s
  {
    assert TrimStart(s + " ", IsPySpace) == s + " ";
    assert (s + " ")[..|s|] == s;
  }

  /** The digits part of `parseInt`: `0x`/`0X` switches to base 16, then the
      longest run of digits is read; no digits gives NaN, written `None`. */
  function ParseUnsigned(u: string): Option<nat>
  {
    if |u| >= 2 && u[0] == '0' && (u[1] == 'x' || u[1] == 'X') then PrefixValue(u[2..], 16)
    else PrefixValue(u, 10)
  }

  /** JavaScript's `parseInt(s)` with no radix: leading white space is skipped,
      one sign is read, then the digits part; NaN is written `None`. */
  function ParseInt(s: string): Option<int>
  {
    var t := TrimStart(s, IsJsSpace);
    if |t| > 0 && t[0] == '-' then
      match ParseUnsigned(t[1..])
      case None => None
      case Some(m) => Some(-(m as int))
    else if |t| > 0 && t[0] == '+' then
      match ParseUnsigned(t[1..])
      case None => None
      case Some(m) => Some(m as int)
    else
      match ParseUnsigned(t)
      case None => None
      case Some(m) => Some(m as int)
  }

  /** A decimal digit is neither white space nor a sign. */
  lemma DigitIsNotSpaceOrSign(c: char)
    requires DigitOf(c, 10).Some?
    ensures !IsJsSpace(c) && !IsPySpace(c) && c != '-' && c != '+' && c != 'x' && c != 'X'
  {
  }

  /** A nonempty run of decimal digits is read whole and in base 10. */
  lemma ParseUnsignedOfDigits(u: string)
    requires u != [] && AllDigits(u, 10)
    ensures ParseUnsigned(u) == Some(DigitsValue(u, 10))
  {
    LeadingDigitsOfDigits(u, 10);
    assert u[..|u|] == u;
    if |u| >= 2 {
      DigitIsNotSpaceOrSign(u[1]);
    }
  }

  /** `parseInt` reads back every integer from its decimal rendering. */
  lemma ParseIntOfIntToString(i: int)
    ensures ParseInt(IntToString(i)) == Some(i)
  {
    var s := IntToString(i);
    var u := NatToString(if i < 0 then -i else i);
    ParseUnsignedOfDigits(u);
    if i < 0 {
      assert s[0] == '-' && s[1..] == u;
    } else {
      DigitIsNotSpaceOrSign(u[0]);
    }
    TrimStartOfNonSpace(s, IsJsSpace);
  }

  /** An optional sign and one or more decimal digits, and nothing else. */
  function SignedDecimal(t: string): Option<int>
  {
    var negative := |t| > 0 && t[0] == '-';
    var u := if |t| > 0 && (t[0] == '-' || t[0] == '+') then t[1..] else t;
    if u != [] && AllDigits(u, 10) then
      var m: int := DigitsValue(u, 10);
      Some(if negative then -m else m)
    else None
  }

  /** Python's `int(s)` on a decimal: surrounding white space is stripped,
      then an optional sign and one or more digits must remain; anything
      else raises, written `None`. */
  function PyInt(s: string): Option<int>
  {
    SignedDecimal(Strip(s))
  }

  /** A string that starts with neither a sign nor a digit, and has no
      white space at its ends, is not an integer. */
  lemma PyIntOfNonDigit(s: string)
    requires s != [] && !IsPySpace(s[0]) && !IsPySpace(s[|s| - 1])
    requires s[0] != '-' && s[0] != '+' && DigitOf(s[0], 10).None?
    ensures PyInt(s).None?
  {
    StripOfTrimmed(s);
  }

  /** The decimal text of an integer is a sign and digits that read back as it. */
  lemma SignedDecimalOfIntToString(i: int)
    ensures SignedDecimal(IntToString(i)) == Some(i)
  {
    var s := IntToString(i);
    var u := NatToString(if i < 0 then -i else i);
    if i < 0 {
      assert s[1..] == u;
    } else {
      DigitIsNotSpaceOrSign(u[0]);
    }
  }

  /** `int(str(i)) == i`. */
  lemma PyIntOfIntToString(i: int)
    ensures PyInt(IntToString(i)) == Some(i)
  {
    var s := IntToString(i);
    var u := NatToString(if i < 0 then -i else i);
    DigitIsNotSpaceOrSign(u[0]);
    DigitIsNotSpaceOrSign(u[|u| - 1]);
    if i < 0 {
      assert s == "-" + u && s[|s| - 1] == u[|u| - 1];
    }
    StripOfTrimmed(s);
    SignedDecimalOfIntToString(i);
  }

  /** Stripping a string padded with a leading space and a trailing line
      feed gives the string, when it has no white space at its ends. */
  lemma StripOfPadded(s: string)
    requires s != [] && !IsPySpace(s[0]) && !IsPySpace(s[|s| - 1])
    ensures Strip(" " + s + "\n") == s
  {
    var padded := " " + s + "\n";
    assert padded[1..] == s + "\n";
    assert (s + "\n")[0] == s[0];
    assert TrimStart(padded, IsPySpace) == s + "\n";
    assert (s + "\n")[..|s|] == s;
    assert TrimEnd(s + "\n", IsPySpace) == TrimEnd(s, IsPySpace);
  }

  /** `int()` ignores the white space around a number: `int(" 5\n") == 5`. */
  lemma PyIntOfPadded(i: int)
    ensures PyInt(" " + IntToString(i) + "\n") == Some(i)
  {
    var s := IntToString(i);
    var u := NatToString(if i < 0 then -i else i);
    DigitIsNotSpaceOrSign(u[0]);
    DigitIsNotSpaceOrSign(u[|u| - 1]);
    if i < 0 {
      assert s == "-" + u && s[|s| - 1] == u[|u| - 1];
    } else {
      assert s == u;
    }
    StripOfPadded(s);
    StripOfTrimmed(s);
    PyIntOfIntToString(i);
    assert PyInt(" " + s + "\n") == SignedDecimal(s) == PyInt(s);
  }
}
