/** Exact models of the few JavaScript value rules the point-of-sale client
    relies on: truthiness of numbers (`a || b`), `String.prototype.trim`,
    `toLowerCase` as it is used for comparisons with ASCII words, and the
    decimal parsers `parseInt(s, 10)` and `parseFloat(s)`.  Numbers are exact
    reals; a parse that yields NaN is `None`. */
module JsValues {

  datatype Option<+T> = None | Some(value: T)

  datatype Result<+T, +E> = Ok(value: T) | Err(error: E)

  // ---------------------------------------------------------------------
  // Truthiness of numbers

  /** `x || y` for numbers: 0 is falsy, every other number is kept. */
  function OrNumber(x: real, y: real): (r: real)
    ensures x != 0.0 ==> r == x
    ensures x == 0.0 ==> r == y
  {
    if x != 0.0 then x else y
  }

  /** `x || y` where `x` may be `undefined` (`None`). */
  function OrOptional(x: Option<real>, y: real): (r: real)
    ensures x.Some? && x.value != 0.0 ==> r == x.value
    ensures x.None? || x.value == 0.0 ==> r == y
  {
    match x
    case None => y
    case Some(v) => OrNumber(v, y)
  }

  // ---------------------------------------------------------------------
  // Whitespace and trim

  /** The characters ECMAScript counts as white space or line terminators
      (WhiteSpace and LineTerminator of ECMA-262, section 12.2 and 12.3),
      which `trim`, `parseInt` and `parseFloat` skip. */
  predicate IsJsWhitespace(c: char)
  {
    c == '\t' || c == '\n' || c == '\U{000B}' || c == '\U{000C}' || c == '\r' ||
    c == ' ' || c == '\U{00A0}' || c == '\U{1680}' ||
    ('\U{2000}' <= c <= '\U{200A}') ||
    c == '\U{2028}' || c == '\U{2029}' || c == '\U{202F}' || c == '\U{205F}' ||
    c == '\U{3000}' || c == '\U{FEFF}'
  }

  predicate AllWhitespace(s: string)
  {
    forall k :: 0 <= k < |s| ==> IsJsWhitespace(s[k])
  }

  /** Drops leading white space: the result is a suffix of `s` that does not
      start with white space, and everything dropped was white space. */
  function TrimStart(s: string): (r: string)
    ensures |r| <= |s| && r == s[|s| - |r|..]
    ensures r != [] ==> !IsJsWhitespace(r[0])
    ensures AllWhitespace(s[..|s| - |r|])
  {
    if s == [] || !IsJsWhitespace(s[0]) then s
    else
      var r := TrimStart(s[1..]);
      assert s[1..][..|s[1..]| - |r|] == s[1..|s| - |r|];
      r
  }

  /** Drops trailing white space: the result is a prefix of `s` that does not
      end with white space, and everything dropped was white space. */
  function TrimEnd(s: string): (r: string)
    ensures |r| <= |s| && r == s[..|r|]
    ensures r != [] ==> !IsJsWhitespace(r[|r| - 1])
    ensures AllWhitespace(s[|r|..])
  {
    if s == [] || !IsJsWhitespace(s[|s| - 1]) then s
    else
      var r := TrimEnd(s[..|s| - 1]);
      assert s[..|s| - 1][|r|..] == s[|r|..|s| - 1];
      r
  }

  /** `String.prototype.trim`: white space removed at both ends. */
  function Trim(s: string): (r: string)
    ensures r != [] ==> !IsJsWhitespace(r[0]) && !IsJsWhitespace(r[|r| - 1])
  {
    TrimEnd(TrimStart(s))
  }

  /** `trim` gives the empty string exactly when `s` is all white space. */
  lemma TrimEmptyIffAllWhitespace(s: string)
    ensures Trim(s) == [] <==> AllWhitespace(s)
  {
    var t := TrimStart(s);
    var r := TrimEnd(t);
    if r == [] {
      assert s == s[..|s| - |t|] + t;
      assert t == t[0..];
    } else {
      assert r[0] == t[0] == s[|s| - |t|];
    }
  }

  /** Trimming twice is trimming once. */
  lemma TrimIdempotent(s: string)
    ensures Trim(Trim(s)) == Trim(s)
  {
    var r := Trim(s);
    if r != [] {
      assert TrimStart(r) == r;
      assert TrimEnd(r) == r;
    }
  }

  /** A single character that is not white space is left as it is. */
  lemma TrimOfNonWhitespaceChar(c: char)
    requires !IsJsWhitespace(c)
    ensures Trim([c]) == [c]
  {
    assert [c][0] == c;
    assert TrimStart([c]) == [c];
    assert TrimEnd([c]) == [c];
  }

  /** `String.prototype.length`: the number of UTF-16 code units, two for a
      character above U+FFFF (a surrogate pair) and one for any other. */
  function Utf16Length(s: string): (n: nat)
    ensures |s| <= n <= 2 * |s|
    ensures n == 0 <==> s == []
  {
    if s == [] then 0
    else (if s[0] as int > 0xFFFF then 2 else 1) + Utf16Length(s[1..])
  }

  /** A character above U+FFFF is a surrogate pair, and no such
      character is white space. */
  lemma AstralCharacterLength(c: char)
    requires c as int > 0xFFFF
    ensures Utf16Length([c]) == 2 && !IsJsWhitespace(c)
  {
    assert [c][1..] == [];
  }

  /** Any other character is one code unit. */
  lemma BmpCharacterLength(c: char)
    requires c as int <= 0xFFFF
    ensures Utf16Length([c]) == 1
  {
    assert [c][1..] == [];
  }

  /** A piece of text the source treats as blank: `!s || s.trim() === ''`. */
  predicate IsBlank(s: string)
  {
    Trim(s) == ""
  }

  // ---------------------------------------------------------------------
  // Case folding, as used to compare with lower-case ASCII words

  function LowerChar(c: char): char
  {
    if 'A' <= c <= 'Z' then (c as int + 32) as char else c
  }

  /** `toLowerCase` restricted to ASCII letters; every other character is kept. */
  function ToLowerAscii(s: string): (r: string)
    ensures |r| == |s|
    ensures forall k :: 0 <= k < |s| ==> r[k] == LowerChar(s[k])
  {
    if s == [] then [] else [LowerChar(s[0])] + ToLowerAscii(s[1..])
  }

  /** Whether `s.toLowerCase() === w` for a lower-case ASCII word `w`. */
  predicate EqualsIgnoringCase(s: string, w: string)
  {
    ToLowerAscii(s) == w
  }

  /** Comparing with a lower-case word is letter-by-letter comparison in
      which each letter may also appear in upper case. */
  lemma EqualsIgnoringCaseLetters(s: string, w: string)
    requires forall k :: 0 <= k < |w| ==> 'a' <= w[k] <= 'z'
    ensures EqualsIgnoringCase(s, w) <==>
      |s| == |w| && forall k :: 0 <= k < |s| ==> s[k] == w[k] || s[k] as int == w[k] as int - 32
  {
    if |s| == |w| && forall k :: 0 <= k < |s| ==> s[k] == w[k] || s[k] as int == w[k] as int - 32 {
      assert forall k :: 0 <= k < |s| ==> ToLowerAscii(s)[k] == w[k];
    }
    if EqualsIgnoringCase(s, w) {
      forall k | 0 <= k < |s|
        ensures s[k] == w[k] || s[k] as int == w[k] as int - 32
      {
        assert LowerChar(s[k]) == w[k];
      }
    }
  }

  // ---------------------------------------------------------------------
  // Decimal digits, parseInt and parseFloat

  predicate IsDigit(c: char)
  {
    '0' <= c <= '9'
  }

  predicate AllDigits(s: string)
  {
    forall k :: 0 <= k < |s| ==> IsDigit(s[k])
  }

  function DigitValue(c: char): nat
    requires IsDigit(c)
  {
    c as int - '0' as int
  }

  /** The longest prefix of `s` made of decimal digits. */
  function DigitPrefix(s: string): (d: string)
    ensures |d| <= |s| && d == s[..|d|]
    ensures AllDigits(d)
    ensures |d| < |s| ==> !IsDigit(s[|d|])
  {
    if s == [] || !IsDigit(s[0]) then []
    else [s[0]] + DigitPrefix(s[1..])
  }

  /** The value of a string of decimal digits, read most significant first. */
  function DigitsValue(d: string): nat
    requires AllDigits(d)
  {
    if d == [] then 0 else DigitsValue(d[..|d| - 1]) * 10 + DigitValue(d[|d| - 1])
  }

  function Pow10(n: nat): (r: nat)
    ensures r >= 1
  {
    if n == 0 then 1 else 10 * Pow10(n - 1)
  }

  /** `parseInt(s, 10)`: skips leading white space, reads an optional sign and
      then as many decimal digits as follow; `None` (NaN) when there is no
      digit there.  Whatever follows the digits is ignored. */
  function ParseInt(s: string): Option<int>
  {
    var t := TrimStart(s);
    var negative := t != [] && t[0] == '-';
    var rest := if t != [] && (t[0] == '-' || t[0] == '+') then t[1..] else t;
    var d := DigitPrefix(rest);
    if d == [] then None
    else Some(if negative then -(DigitsValue(d) as int) else DigitsValue(d))
  }

  /** `parseInt` yields NaN exactly when no digit follows the leading white
      space and the optional sign. */
  lemma ParseIntIsNaN(s: string)
    ensures ParseInt(s).None? <==>
      var t := TrimStart(s);
      var rest := if t != [] && (t[0] == '-' || t[0] == '+') then t[1..] else t;
      rest == [] || !IsDigit(rest[0])
  {
  }

  /** The significand and exponent parts of `parseFloat`'s grammar
      (StrDecimalLiteral without `Infinity`). */
  function DecimalPrefixValue(rest: string): Option<real>
  {
    var intDigits := DigitPrefix(rest);
    var afterInt := rest[|intDigits|..];
    var fracDigits := if afterInt != [] && afterInt[0] == '.' then DigitPrefix(afterInt[1..]) else [];
    var afterFrac := if afterInt != [] && afterInt[0] == '.' then afterInt[1 + |fracDigits|..] else afterInt;
    if intDigits == [] && fracDigits == [] then None
    else
      var mantissa := DigitsValue(intDigits) as real
                      + DigitsValue(fracDigits) as real / Pow10(|fracDigits|) as real;
      Some(mantissa * ExponentScale(afterFrac))
  }

  /** The factor contributed by an exponent part `e[+-]digits` at the start
      of `s`; 1 when `s` does not start with a complete exponent part. */
  function ExponentScale(s: string): (r: real)
    ensures r > 0.0
  {
    if s == [] || (s[0] != 'e' && s[0] != 'E') then 1.0
    else
      var t := s[1..];
      var negative := t != [] && t[0] == '-';
      var digitsFrom := if t != [] && (t[0] == '-' || t[0] == '+') then t[1..] else t;
      var e := DigitPrefix(digitsFrom);
      if e == [] then 1.0
      else if negative then 1.0 / Pow10(DigitsValue(e)) as real
      else Pow10(DigitsValue(e)) as real
  }

  /** `parseFloat(s)`: skips leading white space, reads an optional sign and
      the longest decimal literal that follows; `None` (NaN) when no digit
      can be read. */
  function ParseFloat(s: string): Option<real>
  {
    var t := TrimStart(s);
    var negative := t != [] && t[0] == '-';
    var rest := if t != [] && (t[0] == '-' || t[0] == '+') then t[1..] else t;
    match DecimalPrefixValue(rest)
    case None => None
    case Some(v) => Some(if negative then -v else v)
  }

  /** `parseFloat` yields NaN exactly when, after the leading white space and
      the optional sign, there is neither a digit nor a point followed by a
      digit. */
  lemma ParseFloatIsNaN(s: string)
    ensures ParseFloat(s).None? <==>
      var t := TrimStart(s);
      var rest := if t != [] && (t[0] == '-' || t[0] == '+') then t[1..] else t;
      DigitPrefix(rest) == [] &&
      !(|rest| >= 2 && rest[0] == '.' && IsDigit(rest[1]))
  {
  }

  // ---------------------------------------------------------------------
  // Number to decimal text

  function DigitChar(n: nat): (c: char)
    requires n < 10
    ensures IsDigit(c) && DigitValue(c) == n
  {
    ('0' as int + n) as char
  }

  /** The decimal text of a natural number, as template literals write it. */
  function NatToString(n: nat): (s: string)
    ensures |s| >= 1 && AllDigits(s)
    decreases n
  {
    if n < 10 then [DigitChar(n)] else NatToString(n / 10) + [DigitChar(n % 10)]
  }

  lemma {:induction false} DigitsValueOfNatToString(n: nat)
    ensures DigitsValue(NatToString(n)) == n
    decreases n
  {
    var s := NatToString(n);
    if n >= 10 {
      DigitsValueOfNatToString(n / 10);
      assert s[..|s| - 1] == NatToString(n / 10);
    }
  }

  lemma {:induction false} DigitPrefixOfDigits(s: string)
    requires AllDigits(s)
    ensures DigitPrefix(s) == s
  {
    if s != [] {
      DigitPrefixOfDigits(s[1..]);
    }
  }

  /** Parsing the decimal text of a natural number gives the number back. */
  lemma ParseIntNatToString(n: nat)
    ensures ParseInt(NatToString(n)) == Some(n)
  {
    var s := NatToString(n);
    assert TrimStart(s) == s;
    DigitPrefixOfDigits(s);
    DigitsValueOfNatToString(n);
  }
}
