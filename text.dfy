/**
 * The JavaScript string operations the front end uses: `toLowerCase` and
 * `toUpperCase` (on ASCII letters), `includes`, `startsWith`, `parseInt` and
 * `Number.prototype.toString`.
 */
module Text {
  import opened Wrappers

  function LowerChar(c: char): char {
    if 'A' <= c <= 'Z' then (c as int + 32) as char else c
  }

  function UpperChar(c: char): char {
    if 'a' <= c <= 'z' then (c as int - 32) as char else c
  }

  predicate IsLowerString(s: string) {
    forall i :: 0 <= i < |s| ==> !('A' <= s[i] <= 'Z')
  }

  /** `s.toLowerCase()`: every ASCII capital replaced by its small letter. */
  function Lower(s: string): (r: string)
    ensures |r| == |s|
    ensures forall i :: 0 <= i < |s| ==> r[i] == LowerChar(s[i])
    ensures IsLowerString(r)
  {
    if s == [] then [] else [LowerChar(s[0])] + Lower(s[1..])
  }

  lemma LowerIdempotent(s: string)
    ensures Lower(Lower(s)) == Lower(s)
  {
    assert forall i :: 0 <= i < |s| ==> LowerChar(LowerChar(s[i])) == LowerChar(s[i]);
  }

  /** A string without capitals is its own lower-case form. */
  lemma LowerOfLower(s: string)
    requires IsLowerString(s)
    ensures Lower(s) == s
  {
  }

  /** `s.charAt(0).toUpperCase() + s.slice(1)`; the empty string stays empty. */
  function Capitalize(s: string): string {
    if s == "" then "" else [UpperChar(s[0])] + s[1..]
  }

  /** Only the first character may change, and it becomes its capital. */
  lemma CapitalizeSpec(s: string)
    ensures |Capitalize(s)| == |s|
    ensures s != "" ==> Capitalize(s)[0] == UpperChar(s[0]) && Capitalize(s)[1..] == s[1..]
    ensures Capitalize(Capitalize(s)) == Capitalize(s)
  {
    if s != "" {
      assert Capitalize(s)[1..] == s[1..];
    }
  }

  /** Capitalising is invisible to a case-insensitive comparison. */
  lemma LowerOfCapitalize(s: string)
    ensures Lower(Capitalize(s)) == Lower(s)
  {
    if s != "" {
      assert LowerChar(UpperChar(s[0])) == LowerChar(s[0]);
    }
  }

  predicate StartsWith(s: string, prefix: string) {
    |prefix| <= |s| && s[..|prefix|] == prefix
  }

  /** `needle` occurs in `hay` starting at index `i`. */
  predicate OccursAt(hay: string, needle: string, i: int) {
    0 <= i && i + |needle| <= |hay| && hay[i..i + |needle|] == needle
  }

  /** `hay.includes(needle)`, decided by scanning start positions from the left. */
  predicate Contains(hay: string, needle: string)
    decreases |hay|
  {
    StartsWith(hay, needle) || (|hay| > 0 && Contains(hay[1..], needle))
  }

  /** The scan agrees with the definition: some start position holds the needle. */
  lemma {:induction false} ContainsIffOccurs(hay: string, needle: string)
    ensures Contains(hay, needle) <==> exists i :: OccursAt(hay, needle, i)
    decreases |hay|
  {
    if exists i :: OccursAt(hay, needle, i) {
      var i :| OccursAt(hay, needle, i);
      if i == 0 {
        assert StartsWith(hay, needle);
      } else {
        assert hay[1..][i - 1..i - 1 + |needle|] == hay[i..i + |needle|];
        assert OccursAt(hay[1..], needle, i - 1);
        ContainsIffOccurs(hay[1..], needle);
      }
    }
    if Contains(hay, needle) {
      if StartsWith(hay, needle) {
        assert OccursAt(hay, needle, 0);
      } else {
        ContainsIffOccurs(hay[1..], needle);
        var i :| OccursAt(hay[1..], needle, i);
        assert hay[1..][i..i + |needle|] == hay[i + 1..i + 1 + |needle|];
        assert OccursAt(hay, needle, i + 1);
      }
    }
  }

  /** Every string includes the empty string. */
  lemma ContainsEmpty(hay: string)
    ensures Contains(hay, "")
  {
    assert StartsWith(hay, "");
  }

  /** Inclusion is transitive: a substring of a substring is a substring. */
  lemma ContainsTransitive(a: string, b: string, c: string)
    requires Contains(a, b) && Contains(b, c)
    ensures Contains(a, c)
  {
    ContainsIffOccurs(a, b);
    ContainsIffOccurs(b, c);
    var i :| OccursAt(a, b, i);
    var j :| OccursAt(b, c, j);
    forall k | 0 <= k < |c| ensures a[i + j..i + j + |c|][k] == c[k] {
      assert c[k] == b[j..j + |c|][k] == b[j + k];
      assert b[j + k] == a[i..i + |b|][j + k] == a[i + j + k];
    }
    assert OccursAt(a, c, i + j);
    ContainsIffOccurs(a, c);
  }

  predicate IsDigit(c: char) {
    '0' <= c <= '9'
  }

  predicate IsDigits(s: string) {
    forall i :: 0 <= i < |s| ==> IsDigit(s[i])
  }

  function DigitChar(d: nat): char
    requires d < 10
  {
    ('0' as int + d) as char
  }

  /** The value of a string of decimal digits, most significant first. */
  function DigitsValue(s: string): nat
    requires IsDigits(s)
  {
    if s == [] then 0
    else DigitsValue(s[..|s| - 1]) * 10 + (s[|s| - 1] as int - '0' as int)
  }

  /** `n.toString()` for a non-negative integer: its decimal digits without leading zeros. */
  function NatToString(n: nat): (s: string)
    ensures |s| > 0 && IsDigits(s)
    ensures |s| > 1 ==> s[0] != '0'
    decreases n
  {
    if n < 10 then [DigitChar(n)] else NatToString(n / 10) + [DigitChar(n % 10)]
  }

  /** Reading the decimal form back yields the number. */
  lemma {:induction false} NatToStringValue(n: nat)
    ensures DigitsValue(NatToString(n)) == n
    decreases n
  {
    if n >= 10 {
      var s := NatToString(n);
      assert s[..|s| - 1] == NatToString(n / 10);
      NatToStringValue(n / 10);
    }
  }

  lemma NatToStringInjective(m: nat, n: nat)
    requires NatToString(m) == NatToString(n)
    ensures m == n
  {
    NatToStringValue(m);
    NatToStringValue(n);
  }

  /**
   * The characters `parseInt` skips before the number: ECMAScript white space
   * (tab, vertical tab, form feed, space, no-break space, the byte order mark
   * and the space separators) and the line terminators.
   */
  predicate IsJsWhitespace(c: char) {
    c == '\t' || c == '\n' || c == '\U{B}' || c == '\U{C}' || c == '\r' || c == ' ' ||
    c == '\U{A0}' || c == '\U{1680}' || ('\U{2000}' <= c <= '\U{200A}') ||
    c == '\U{2028}' || c == '\U{2029}' || c == '\U{202F}' || c == '\U{205F}' ||
    c == '\U{3000}' || c == '\U{FEFF}'
  }

  /** The number of white-space characters `s` starts with. */
  function WhitespacePrefixLength(s: string): (k: nat)
    ensures k <= |s|
    ensures forall i :: 0 <= i < k ==> IsJsWhitespace(s[i])
    ensures k < |s| ==> !IsJsWhitespace(s[k])
  {
    if s == [] || !IsJsWhitespace(s[0]) then 0
    else
      var k := 1 + WhitespacePrefixLength(s[1..]);
      assert forall i :: 1 <= i < k ==> s[i] == s[1..][i - 1];
      k
  }

  /** A digit's value in the bases up to 36: `0`-`9`, then `a`-`z` or `A`-`Z` from ten; 36 for anything else. */
  function DigitValue(c: char): (d: nat)
    ensures d <= 36
    ensures d < 10 <==> IsDigit(c)
  {
    if '0' <= c <= '9' then c as int - '0' as int
    else if 'a' <= c <= 'z' then c as int - 'a' as int + 10
    else if 'A' <= c <= 'Z' then c as int - 'A' as int + 10
    else 36
  }

  predicate IsDigitIn(c: char, radix: nat) {
    DigitValue(c) < radix
  }

  predicate IsDigitsIn(s: string, radix: nat) {
    forall i :: 0 <= i < |s| ==> IsDigitIn(s[i], radix)
  }

  /** The value of a string of base-`radix` digits, most significant first. */
  function ValueIn(s: string, radix: nat): nat
    requires IsDigitsIn(s, radix)
  {
    if s == [] then 0
    else ValueIn(s[..|s| - 1], radix) * radix + DigitValue(s[|s| - 1])
  }

  /** Decimal digits are the base-ten digits, with the decimal value. */
  lemma {:induction false} DecimalValueIn(s: string)
    requires IsDigits(s)
    ensures IsDigitsIn(s, 10) && ValueIn(s, 10) == DigitsValue(s)
  {
    if s != [] {
      DecimalValueIn(s[..|s| - 1]);
    }
  }

  /** The length of the longest prefix of `s` made of base-`radix` digits. */
  function DigitPrefixLength(s: string, radix: nat): (k: nat)
    ensures k <= |s| && IsDigitsIn(s[..k], radix)
    ensures k < |s| ==> !IsDigitIn(s[k], radix)
  {
    if s == [] || !IsDigitIn(s[0], radix) then 0
    else
      var k := 1 + DigitPrefixLength(s[1..], radix);
      assert s[..k] == [s[0]] + s[1..][..k - 1];
      k
  }

  /** The digit run of `d + rest` is `d` when `rest` does not go on with a digit. */
  lemma {:induction false} DigitPrefixOfDigits(d: string, rest: string, radix: nat)
    requires IsDigitsIn(d, radix)
    requires rest == [] || !IsDigitIn(rest[0], radix)
    ensures DigitPrefixLength(d + rest, radix) == |d|
  {
    if d != [] {
      assert (d + rest)[1..] == d[1..] + rest;
      DigitPrefixOfDigits(d[1..], rest, radix);
    }
  }

  /** `s` without its leading white space. */
  function TrimStart(s: string): string {
    s[WhitespacePrefixLength(s)..]
  }

  /** What follows an optional sign. */
  function Unsigned(t: string): string {
    if |t| > 0 && (t[0] == '-' || t[0] == '+') then t[1..] else t
  }

  predicate HasHexPrefix(u: string) {
    |u| >= 2 && u[0] == '0' && (u[1] == 'x' || u[1] == 'X')
  }

  /** With no radix argument, `parseInt` reads base sixteen after a `0x` or `0X` prefix and base ten otherwise. */
  function Radix(u: string): nat {
    if HasHexPrefix(u) then 16 else 10
  }

  /** Where the digits start: after the hexadecimal prefix, if any. */
  function DigitsPart(u: string): string {
    if HasHexPrefix(u) then u[2..] else u
  }

  /** `parseInt` on text that no longer starts with white space. */
  function ParseTrimmed(t: string): Option<int> {
    var u := Unsigned(t);
    var body := DigitsPart(u);
    var k := DigitPrefixLength(body, Radix(u));
    if k == 0 then None
    else
      var v: int := ValueIn(body[..k], Radix(u));
      Some(if |t| > 0 && t[0] == '-' then -v else v)
  }

  /**
   * `parseInt(s)` with no radix: white space, an optional sign and an optional
   * `0x` prefix, then the longest run of digits of the base; `None` stands for
   * `NaN`, which comes exactly when no digit of the base follows.
   */
  function ParseInt(s: string): (r: Option<int>)
    ensures var u := Unsigned(TrimStart(s));
      r.None? <==> DigitsPart(u) == [] || !IsDigitIn(DigitsPart(u)[0], Radix(u))
  {
    ParseTrimmed(TrimStart(s))
  }

  /** The digits of a decimal form followed by a non-digit that is no `x`: base ten, and the number. */
  lemma DecimalBody(n: nat, rest: string)
    requires rest == [] || (!IsDigit(rest[0]) && rest[0] != 'x' && rest[0] != 'X')
    ensures var u := NatToString(n) + rest;
      !HasHexPrefix(u) && DigitPrefixLength(u, 10) == |NatToString(n)| &&
      ValueIn(u[..|NatToString(n)|], 10) == n
  {
    var d := NatToString(n);
    assert !HasHexPrefix(d + rest) by {
      if |d| > 1 {
        assert (d + rest)[0] == d[0];
      }
    }
    DecimalValueIn(d);
    DigitPrefixOfDigits(d, rest, 10);
    assert (d + rest)[..|d|] == d;
    NatToStringValue(n);
  }

  /** Text that starts with a sign or a digit is its own trimmed form, and its sign is read off. */
  lemma SignedForm(negative: bool, u: string)
    requires |u| > 0 && IsDigit(u[0])
    ensures var m := (if negative then "-" else "") + u;
      TrimStart(m) == m && Unsigned(m) == u && (|m| > 0 && m[0] == '-' <==> negative)
  {
    var m := (if negative then "-" else "") + u;
    assert !IsJsWhitespace(m[0]);
    if negative {
      assert m[1..] == u;
    } else {
      assert m == u;
    }
  }

  /**
   * A decimal form, signed or not, followed by anything that does not go on
   * with a digit or an `x`, parses to its number: `parseInt("3 beds")` is 3.
   */
  lemma ParseIntOfDecimal(n: nat, negative: bool, rest: string)
    requires rest == [] || (!IsDigit(rest[0]) && rest[0] != 'x' && rest[0] != 'X')
    ensures ParseInt((if negative then "-" else "") + (NatToString(n) + rest)) == Some(if negative then -(n as int) else n as int)
  {
    DecimalBody(n, rest);
    SignedForm(negative, NatToString(n) + rest);
  }

  /** `parseInt(String(n))` gives `n` back. */
  lemma ParseIntOfNatToString(n: nat)
    ensures ParseInt(NatToString(n)) == Some(n)
  {
    ParseIntOfDecimal(n, false, "");
    assert "" + (NatToString(n) + "") == NatToString(n);
  }

  /** Leading white space is skipped: `parseInt(" 3")` is `parseInt("3")`. */
  lemma ParseIntSkipsWhitespace(c: char, s: string)
    requires IsJsWhitespace(c)
    ensures ParseInt([c] + s) == ParseInt(s)
  {
    assert ([c] + s)[1..] == s;
    assert WhitespacePrefixLength([c] + s) == 1 + WhitespacePrefixLength(s);
    assert TrimStart([c] + s) == TrimStart(s);
  }

  /** The hexadecimal prefix: `parseInt("0x1A")` is 26 and `parseInt("0x")` is `NaN`. */
  lemma ParseIntHexPrefix()
    ensures ParseInt("0x1A") == Some(26)
    ensures ParseInt("0x") == None
  {
    assert !IsJsWhitespace('0');
    assert TrimStart("0x1A") == "0x1A" && TrimStart("0x") == "0x";
    assert Unsigned("0x1A") == "0x1A" && HasHexPrefix("0x1A");
    assert DigitsPart("0x1A") == "1A";
    DigitPrefixOfDigits("1A", "", 16);
    assert "1A"[..2] == "1A" && "1A"[..1] == "1" && "1"[..0] == "";
    assert ValueIn("1", 16) == 1;
    assert ValueIn("1A", 16) == 26;
    assert DigitsPart("0x") == "";
  }
}
