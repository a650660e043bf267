/**
 * The pieces of JavaScript semantics the client's rules depend on: the
 * truncating remainder operator, truthiness of optional strings, and the
 * two string built-ins the pages call (`String.prototype.trim` and
 * `parseInt(s, 10)`), written out as in the ECMAScript language
 * specification.
 */
module Js {
  import opened Types

  /** `a % b` on numbers: the remainder truncates toward zero, so its sign
      is the sign of `a` (unlike Dafny's Euclidean `%`). */
  function Rem(a: int, b: int): (r: int)
    requires b > 0
    ensures a >= 0 ==> 0 <= r < b && r == a % b
    ensures a < 0 ==> -b < r <= 0 && r == -((-a) % b)
  {
    if a >= 0 then a % b else -((-a) % b)
  }

  /** Dafny's `%` has a unique remainder: any decomposition of `a` into a
      multiple of `m` and a remainder in [0, m) is the one `%` picks. */
  lemma ModUnique(a: int, m: int, q: int, r: int)
    requires m > 0 && 0 <= r < m && a == q * m + r
    ensures a % m == r
  {
    var q', r' := a / m, a % m;
    assert a == q' * m + r';
    assert (q - q') * m == r' - r;
    if q - q' >= 1 {
      assert false;
    } else if q - q' <= -1 {
      assert false;
    }
  }

  lemma ShiftMod(a: int, m: int)
    requires m > 0
    ensures (a + m) % m == a % m
    ensures (a - m) % m == a % m
  {
    var q, r := a / m, a % m;
    assert a == q * m + r;
    ModUnique(a + m, m, q + 1, r);
    ModUnique(a - m, m, q - 1, r);
  }

  /** `String(new Error(message))`: an Error prints as its name, a colon
      and its message, or as its name alone when the message is empty
      (Error.prototype.toString, section 20.5.3.4 of ECMA-262). */
  function ErrorText(message: string): (t: string)
    ensures |t| > |message| && t[|t| - |message|..] == message
    ensures message == "" <==> t == "Error"
  {
    if message == "" then "Error" else "Error: " + message
  }

  /** A nullable string is truthy when it is present and not empty. */
  predicate Truthy(s: Option<string>) {
    s.Some? && s.value != ""
  }

  /** `a || b` on nullable strings. */
  function OrElse(a: Option<string>, b: Option<string>): (r: Option<string>)
    ensures Truthy(a) ==> r == a
    ensures !Truthy(a) ==> r == b
  {
    if Truthy(a) then a else b
  }

  /** WhiteSpace and LineTerminator code points (sections 12.2 and 12.3 of
      ECMA-262): what `trim` removes. */
  predicate IsWhitespace(c: char) {
    c == ' ' || c == '\t' || c == '\n' || c == '\r' || c == '\U{000B}' || c == '\U{000C}'
    || c == '\U{00A0}' || c == '\U{1680}' || ('\U{2000}' <= c <= '\U{200A}')
    || c == '\U{2028}' || c == '\U{2029}' || c == '\U{202F}' || c == '\U{205F}'
    || c == '\U{3000}' || c == '\U{FEFF}'
  }

  function TrimStart(s: string): (r: string)
    ensures |r| <= |s| && r == s[|s| - |r|..]
    ensures r == [] || !IsWhitespace(r[0])
    ensures forall i :: 0 <= i < |s| - |r| ==> IsWhitespace(s[i])
  {
    if s != [] && IsWhitespace(s[0]) then TrimStart(s[1..]) else s
  }

  function TrimEnd(s: string): (r: string)
    ensures |r| <= |s| && r == s[..|r|]
    ensures r == [] || !IsWhitespace(r[|r| - 1])
    ensures forall i :: |r| <= i < |s| ==> IsWhitespace(s[i])
  {
    if s != [] && IsWhitespace(s[|s| - 1]) then TrimEnd(s[..|s| - 1]) else s
  }

  /** `s.trim()`. */
  function Trim(s: string): string {
    TrimEnd(TrimStart(s))
  }

  /** `!s.trim()`: the trimmed string is empty exactly when every character
      of `s` is white space. */
  predicate IsBlank(s: string) {
    Trim(s) == ""
  }

  /** Nothing is left once every character is white space. */
  lemma AllWhitespaceIsBlank(s: string)
    requires forall i :: 0 <= i < |s| ==> IsWhitespace(s[i])
    ensures IsBlank(s)
  {
    var t := TrimStart(s);
    assert t == [];
  }

  /** A string that trims to nothing holds only white space. */
  lemma BlankIsAllWhitespace(s: string)
    requires IsBlank(s)
    ensures forall i :: 0 <= i < |s| ==> IsWhitespace(s[i])
  {
    var t := TrimStart(s);
    assert forall i :: 0 <= i < |t| ==> IsWhitespace(t[i]);
    assert t == [];
  }

  lemma BlankIffAllWhitespace(s: string)
    ensures IsBlank(s) <==> forall i :: 0 <= i < |s| ==> IsWhitespace(s[i])
  {
    if IsBlank(s) {
      BlankIsAllWhitespace(s);
    }
    if forall i :: 0 <= i < |s| ==> IsWhitespace(s[i]) {
      AllWhitespaceIsBlank(s);
    }
  }

  /** The result of `parseInt`: an integer or NaN. */
  datatype ParsedInt = Int(n: int) | NaN

  predicate IsDigit(c: char) {
    '0' <= c <= '9'
  }

  function DigitValue(c: char): nat
    requires IsDigit(c)
  {
    (c as int) - ('0' as int)
  }

  function DigitChar(d: nat): (c: char)
    requires d < 10
    ensures IsDigit(c) && DigitValue(c) == d
  {
    (('0' as int) + d) as char
  }

  /** The longest prefix of `s` made of decimal digits. */
  function DigitPrefix(s: string): (p: string)
    ensures |p| <= |s| && p == s[..|p|]
    ensures forall i :: 0 <= i < |p| ==> IsDigit(p[i])
    ensures |p| < |s| ==> !IsDigit(s[|p|])
  {
    if s != [] && IsDigit(s[0]) then [s[0]] + DigitPrefix(s[1..]) else []
  }

  /** The mathematical value of a string of decimal digits. */
  function DigitsValue(d: string): nat
    requires forall i :: 0 <= i < |d| ==> IsDigit(d[i])
  {
    if d == [] then 0 else DigitsValue(d[..|d| - 1]) * 10 + DigitValue(d[|d| - 1])
  }

  /** `parseInt(s, 10)` (section 19.2.5 of ECMA-262): skip leading white
      space, read one optional sign, then the longest run of decimal digits;
      no digits gives NaN. */
  function ParseInt(s: string): ParsedInt {
    var t := TrimStart(s);
    var negative := t != [] && t[0] == '-';
    var rest := if t != [] && (t[0] == '-' || t[0] == '+') then t[1..] else t;
    var digits := DigitPrefix(rest);
    if digits == [] then NaN
    else if negative then Int(0 - DigitsValue(digits))
    else Int(DigitsValue(digits))
  }

  /** `String(n)` for a non-negative integer. */
  function Decimal(n: nat): (s: string)
    ensures s != [] && forall i :: 0 <= i < |s| ==> IsDigit(s[i])
  {
    if n < 10 then [DigitChar(n)] else Decimal(n / 10) + [DigitChar(n % 10)]
  }

  lemma {:induction false} DecimalValue(n: nat)
    ensures DigitsValue(Decimal(n)) == n
  {
    if n >= 10 {
      var s := Decimal(n);
      assert s[..|s| - 1] == Decimal(n / 10);
      DecimalValue(n / 10);
    }
  }

  lemma {:induction false} AllDigitsPrefix(s: string)
    requires forall i :: 0 <= i < |s| ==> IsDigit(s[i])
    ensures DigitPrefix(s) == s
  {
    if s != [] {
      AllDigitsPrefix(s[1..]);
    }
  }

  /** Parsing what `String(n)` prints gives `n` back: a select whose option
      values are integers reports the integer that was rendered. */
  lemma ParseIntDecimal(n: nat)
    ensures ParseInt(Decimal(n)) == Int(n)
  {
    var s := Decimal(n);
    assert !IsWhitespace(s[0]);
    assert TrimStart(s) == s;
    AllDigitsPrefix(s);
    DecimalValue(n);
  }
}
