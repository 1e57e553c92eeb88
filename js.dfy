/** The JavaScript string/number conversions the client relies on, as ECMAScript defines them
    for the values that occur here: `parseInt(s, 10)` (used by the mock backend on path ids),
    the `isNaN(Number(s))` test (used on route parameters) and the template-literal formatting
    of an integral number (used to build request paths). JavaScript numbers are modelled as
    mathematical integers. */
module Js {
  import opened Types
  import Seqs

  /** ECMAScript's StrWhiteSpaceChar: TAB, VT, FF, ZWNBSP, the Space_Separator characters and
      the line terminators LF, CR, LS and PS. */
  predicate IsWhiteSpace(c: char) {
    || c == '\t' || c == '\U{000B}' || c == '\U{000C}' || c == ' ' || c == '\U{00A0}'
    || c == '\U{FEFF}' || c == '\U{1680}' || ('\U{2000}' <= c <= '\U{200A}') || c == '\U{202F}'
    || c == '\U{205F}' || c == '\U{3000}'
    || c == '\n' || c == '\r' || c == '\U{2028}' || c == '\U{2029}'
  }

  /** Leading white space removed. */
  function TrimStart(s: string): (t: string)
    ensures |t| <= |s| && t == s[|s| - |t|..]
    ensures t == [] || !IsWhiteSpace(t[0])
    ensures forall i :: 0 <= i < |s| - |t| ==> IsWhiteSpace(s[i])
  {
    if s != [] && IsWhiteSpace(s[0]) then TrimStart(s[1..]) else s
  }

  /** Trailing white space removed. */
  function TrimEnd(s: string): (t: string)
    ensures |t| <= |s| && t == s[..|t|]
    ensures t == [] || !IsWhiteSpace(t[|t| - 1])
    ensures forall i :: |t| <= i < |s| ==> IsWhiteSpace(s[i])
  {
    if s != [] && IsWhiteSpace(s[|s| - 1]) then TrimEnd(s[..|s| - 1]) else s
  }

  predicate IsDigit(c: char) {
    '0' <= c <= '9'
  }

  predicate AllDigits(s: string) {
    forall i :: 0 <= i < |s| ==> IsDigit(s[i])
  }

  /** The longest prefix of decimal digits. */
  function DigitPrefix(s: string): (z: string)
    ensures z <= s && AllDigits(z)
    ensures |z| < |s| ==> !IsDigit(s[|z|])
  {
    if s != [] && IsDigit(s[0]) then [s[0]] + DigitPrefix(s[1..]) else []
  }

  function DigitValue(c: char): nat
    requires IsDigit(c)
  {
    (c as int) - ('0' as int)
  }

  function DigitChar(d: nat): char
    requires d < 10
  {
    ('0' as int + d) as char
  }

  /** The value of a string of decimal digits, most significant first. */
  function DigitsValue(z: string): nat
    requires AllDigits(z)
  {
    if z == [] then 0 else 10 * DigitsValue(z[..|z| - 1]) + DigitValue(z[|z| - 1])
  }

  /** `parseInt(s, 10)`: skip leading white space, take one optional sign, then the longest
      run of decimal digits; NaN (`None`) when that run is empty. Whatever follows the run is
      ignored. */
  function ParseInt10(s: string): Option<int> {
    ParseSignedDigits(TrimStart(s))
  }

  /** The part of `parseInt` after the white space: sign, then digits. */
  function ParseSignedDigits(t: string): Option<int> {
    var negative := t != [] && t[0] == '-';
    var u := if t != [] && (t[0] == '+' || t[0] == '-') then t[1..] else t;
    var z := DigitPrefix(u);
    if z == [] then None
    else
      var magnitude: int := DigitsValue(z);
      Some(if negative then -magnitude else magnitude)
  }

  /** Decimal digits of a natural number, without leading zeros. */
  function NatToString(n: nat): string {
    if n < 10 then [DigitChar(n)] else NatToString(n / 10) + [DigitChar(n % 10)]
  }

  /** `${n}` for an integral number `n`. */
  function NumberToString(n: int): string {
    if n < 0 then "-" + NatToString(-n) else NatToString(n)
  }

  lemma {:induction false} NatToStringDigits(n: nat)
    ensures NatToString(n) != [] && AllDigits(NatToString(n))
    ensures DigitsValue(NatToString(n)) == n
  {
    if n >= 10 {
      NatToStringDigits(n / 10);
      var s := NatToString(n);
      assert s[..|s| - 1] == NatToString(n / 10);
    }
  }

  lemma {:induction false} DigitPrefixOfDigits(z: string)
    requires AllDigits(z)
    ensures DigitPrefix(z) == z
  {
    if z != [] {
      DigitPrefixOfDigits(z[1..]);
      assert [z[0]] + z[1..] == z;
    }
  }

  /** A formatted integer has no separator, white space or sign other than a leading '-'. */
  lemma NumberToStringShape(n: int)
    ensures var s := NumberToString(n);
      && s != []
      && (n < 0 ==> s[0] == '-' && s[1..] == NatToString(-n))
      && (n >= 0 ==> s == NatToString(n))
      && AllDigits(NatToString(if n < 0 then -n else n))
      && forall i :: 0 <= i < |s| ==> IsDigit(s[i]) || (i == 0 && s[i] == '-')
  {
    NatToStringDigits(if n < 0 then -n else n);
  }

  lemma {:induction false} DigitPrefixStops(z: string, rest: string)
    requires AllDigits(z) && (rest == [] || !IsDigit(rest[0]))
    ensures DigitPrefix(z + rest) == z
  {
    if z != [] {
      assert (z + rest)[1..] == z[1..] + rest;
      DigitPrefixStops(z[1..], rest);
      assert [z[0]] + z[1..] == z;
    }
  }

  lemma {:induction false} TrimStartSkips(w: string, s: string)
    requires forall i :: 0 <= i < |w| ==> IsWhiteSpace(w[i])
    ensures TrimStart(w + s) == TrimStart(s)
  {
    if w == [] {
      assert w + s == s;
    } else {
      assert (w + s)[0] == w[0];
      assert (w + s)[1..] == w[1..] + s;
      TrimStartSkips(w[1..], s);
    }
  }

  /** `parseInt` skips leading white space. */
  lemma ParseInt10SkipsWhiteSpace(w: string, s: string)
    requires forall i :: 0 <= i < |w| ==> IsWhiteSpace(w[i])
    ensures ParseInt10(w + s) == ParseInt10(s)
  {
    TrimStartSkips(w, s);
  }

  lemma SignedDigitsOfNat(m: nat, rest: string)
    requires rest == [] || !IsDigit(rest[0])
    ensures ParseSignedDigits(NatToString(m) + rest) == Some(m)
  {
    var d := NatToString(m);
    NatToStringDigits(m);
    DigitPrefixStops(d, rest);
    var s := d + rest;
    assert s[0] == d[0] && IsDigit(s[0]);
  }

  lemma SignedDigitsAfterMinus(u: string)
    requires DigitPrefix(u) != []
    ensures var magnitude: int := DigitsValue(DigitPrefix(u));
      ParseSignedDigits(['-'] + u) == Some(-magnitude)
  {
    var t := ['-'] + u;
    assert t[0] == '-' && t[1..] == u;
  }

  lemma SignedDigitsOfNegative(m: int, rest: string)
    requires m > 0 && (rest == [] || !IsDigit(rest[0]))
    ensures ParseSignedDigits("-" + NatToString(m) + rest) == Some(-m)
  {
    var d := NatToString(m);
    NatToStringDigits(m);
    DigitPrefixStops(d, rest);
    assert DigitPrefix(d + rest) == d && DigitsValue(d) == m;
    SignedDigitsAfterMinus(d + rest);
    assert "-" + d + rest == ['-'] + (d + rest);
  }

  lemma TrimStartOfPrintable(s: string)
    requires s != [] && '!' <= s[0] <= '~'
    ensures TrimStart(s) == s
  {
    PrintableNotWhiteSpace(s[0]);
  }

  lemma ParseInt10ReadsNegative(n: int, rest: string)
    requires n < 0 && (rest == [] || !IsDigit(rest[0]))
    ensures ParseInt10(NumberToString(n) + rest) == Some(n)
  {
    var s := "-" + NatToString(-n) + rest;
    assert NumberToString(n) + rest == s;
    assert s[0] == '-';
    TrimStartOfPrintable(s);
    SignedDigitsOfNegative(-n, rest);
  }

  lemma ParseInt10ReadsNonNegative(n: nat, rest: string)
    requires rest == [] || !IsDigit(rest[0])
    ensures ParseInt10(NumberToString(n) + rest) == Some(n)
  {
    NatToStringDigits(n);
    var s := NatToString(n) + rest;
    assert NumberToString(n) + rest == s;
    assert s[0] == NatToString(n)[0];
    TrimStartOfPrintable(s);
    SignedDigitsOfNat(n, rest);
  }

  /** `parseInt` reads a formatted integer back, whatever non-digit text follows it. */
  lemma ParseInt10ReadsPrefix(n: int, rest: string)
    requires rest == [] || !IsDigit(rest[0])
    ensures ParseInt10(NumberToString(n) + rest) == Some(n)
  {
    if n < 0 {
      ParseInt10ReadsNegative(n, rest);
    } else {
      ParseInt10ReadsNonNegative(n, rest);
    }
  }

  /** Reading back a formatted id with `parseInt(_, 10)` gives the id. */
  lemma ParseInt10RoundTrip(n: int)
    ensures ParseInt10(NumberToString(n)) == Some(n)
  {
    ParseInt10ReadsPrefix(n, []);
    assert NumberToString(n) + [] == NumberToString(n);
  }

  lemma NumberToStringInjective(a: int, b: int)
    requires NumberToString(a) == NumberToString(b)
    ensures a == b
  {
    ParseInt10RoundTrip(a);
    ParseInt10RoundTrip(b);
  }

  /** Printable ASCII other than the space is not white space. */
  lemma PrintableNotWhiteSpace(c: char)
    requires '!' <= c <= '~'
    ensures !IsWhiteSpace(c)
  {
  }

  // ---- Number(s): only whether the result is NaN ----

  /** White space removed at both ends (`String.prototype.trim`). */
  function Trim(s: string): string {
    TrimEnd(TrimStart(s))
  }

  /** A text that neither starts nor ends with white space is its own trim. */
  lemma TrimmedAlready(s: string)
    requires s != [] && !IsWhiteSpace(s[0]) && !IsWhiteSpace(s[|s| - 1])
    ensures TrimStart(s) == s && Trim(s) == s
  {
  }

  predicate IsDecimalDigits(s: string) {
    s != [] && AllDigits(s)
  }

  predicate AllIn(s: string, alphabet: string) {
    forall i :: 0 <= i < |s| ==> s[i] in alphabet
  }

  /** `0b…`, `0o…` or `0x…` (no sign, no separators). */
  predicate IsNonDecimalIntegerLiteral(s: string) {
    && |s| >= 3
    && s[0] == '0'
    && (|| (s[1] in "bB" && AllIn(s[2..], "01"))
        || (s[1] in "oO" && AllIn(s[2..], "01234567"))
        || (s[1] in "xX" && AllIn(s[2..], "0123456789abcdefABCDEF")))
  }

  predicate IsSignedInteger(s: string) {
    || IsDecimalDigits(s)
    || (s != [] && (s[0] == '+' || s[0] == '-') && IsDecimalDigits(s[1..]))
  }

  /** `digits`, `digits.`, `digits.digits` or `.digits`. */
  predicate IsMantissa(s: string) {
    match Seqs.FindIndex(s, (c: char) => c == '.')
    case None => IsDecimalDigits(s)
    case Some(i) =>
      || (IsDecimalDigits(s[..i]) && AllDigits(s[i + 1..]))
      || (i == 0 && IsDecimalDigits(s[1..]))
  }

  /** ECMAScript's StrUnsignedDecimalLiteral: `Infinity`, or a mantissa with an optional
      exponent part. */
  predicate IsUnsignedDecimalLiteral(s: string) {
    || s == "Infinity"
    || match Seqs.FindIndex(s, (c: char) => c == 'e' || c == 'E')
       case None => IsMantissa(s)
       case Some(e) => IsMantissa(s[..e]) && IsSignedInteger(s[e + 1..])
  }

  predicate IsStrDecimalLiteral(s: string) {
    || IsUnsignedDecimalLiteral(s)
    || (s != [] && (s[0] == '+' || s[0] == '-') && IsUnsignedDecimalLiteral(s[1..]))
  }

  /** `isNaN(Number(s))`: after trimming, the text is neither empty (which gives 0) nor a
      StrNumericLiteral. */
  predicate NumberIsNaN(s: string) {
    var t := Trim(s);
    t != [] && !IsNonDecimalIntegerLiteral(t) && !IsStrDecimalLiteral(t)
  }

  /** Every formatted id is read back by `Number` as a number. */
  lemma NumberToStringIsNumber(n: int)
    ensures !NumberIsNaN(NumberToString(n))
  {
    var s := NumberToString(n);
    var m: nat := if n < 0 then -n else n;
    NumberToStringShape(n);
    assert !IsWhiteSpace(s[0]) && !IsWhiteSpace(s[|s| - 1]);
    assert TrimStart(s) == s;
    assert Trim(s) == s;
    var d := NatToString(m);
    assert Seqs.FindIndex(d, (c: char) => c == '.').None?;
    assert Seqs.FindIndex(d, (c: char) => c == 'e' || c == 'E').None?;
    assert IsUnsignedDecimalLiteral(d);
  }
}
