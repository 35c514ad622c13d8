/**
  Shared vocabulary of the storefront model: optional values, the three ways an
  HTTP call made with axios can end, and the few JavaScript string operations
  the page handlers rely on (`length`, `toUpperCase`, `toLowerCase`,
  `includes`, `endsWith`, `parseInt`, truthiness of a stored string).
 */
module Common {

  datatype Option<+T> = None | Some(value: T)

  /** How an awaited axios call ends: a 2xx response with its body, an error
      response with its status and (when it has one) a text body, or no
      response at all (server down, wrong port). */
  datatype Outcome<+T> = Ok(body: T) | Rejected(status: int, data: Option<string>) | NoResponse

  /** A JavaScript value read as a condition: a missing string and the empty
      string are both falsy. */
  predicate Truthy(s: Option<string>) {
    s.Some? && s.value != ""
  }

  /** `x || ''` for an optional string field. */
  function OrEmpty(s: Option<string>): (r: string)
    ensures Truthy(s) ==> r == s.value
    ensures !Truthy(s) ==> r == ""
  {
    if s.Some? then s.value else ""
  }

  // ---------------------------------------------------------------------------
  // `length`: JavaScript strings count UTF-16 code units, so a character
  // outside the Basic Multilingual Plane counts twice.

  predicate IsAstral(c: char) {
    c as int >= 0x10000
  }

  function Utf16Length(s: string): (n: nat)
    ensures n >= |s|
    ensures (forall i :: 0 <= i < |s| ==> !IsAstral(s[i])) ==> n == |s|
    ensures n <= 2 * |s|
  {
    if s == [] then 0 else (if IsAstral(s[0]) then 2 else 1) + Utf16Length(s[1..])
  }

  // ---------------------------------------------------------------------------
  // Case mapping.

  /** `toUpperCase` on one character, for the characters whose capital is an
      ASCII letter: a-z, dotless i (U+0131) and long s (U+017F). */
  function UpperChar(c: char): char {
    if 'a' <= c <= 'z' then (c as int - 32) as char
    else if c == '\U{0131}' then 'I'
    else if c == '\U{017F}' then 'S'
    else c
  }

  function ToUpper(s: string): (r: string)
    ensures |r| == |s|
    ensures forall i :: 0 <= i < |s| ==> r[i] == UpperChar(s[i])
  {
    seq(|s|, i requires 0 <= i < |s| => UpperChar(s[i]))
  }

  /** `toLowerCase` on one character, for ASCII capitals. */
  function LowerChar(c: char): char {
    if 'A' <= c <= 'Z' then (c as int + 32) as char else c
  }

  function ToLower(s: string): (r: string)
    ensures |r| == |s|
    ensures forall i :: 0 <= i < |s| ==> r[i] == LowerChar(s[i])
  {
    seq(|s|, i requires 0 <= i < |s| => LowerChar(s[i]))
  }

  // ---------------------------------------------------------------------------
  // Substring tests.

  predicate EndsWith(s: string, suffix: string) {
    |suffix| <= |s| && s[|s| - |suffix|..] == suffix
  }

  predicate StartsWith(s: string, prefix: string) {
    |prefix| <= |s| && s[..|prefix|] == prefix
  }

  /** `s.includes(part)`, searched from the left. */
  predicate Includes(s: string, part: string)
    decreases |s|
  {
    StartsWith(s, part) || (s != [] && Includes(s[1..], part))
  }

  lemma {:induction false} IncludesAt(s: string, part: string, k: nat)
    requires k + |part| <= |s| && s[k..k + |part|] == part
    ensures Includes(s, part)
    decreases k
  {
    if k == 0 {
      assert s[..|part|] == s[0..|part|];
    } else {
      assert s[1..][k - 1..k - 1 + |part|] == s[k..k + |part|];
      IncludesAt(s[1..], part, k - 1);
    }
  }

  lemma {:induction false} IncludesWitness(s: string, part: string) returns (k: nat)
    requires Includes(s, part)
    ensures k + |part| <= |s| && s[k..k + |part|] == part
    decreases |s|
  {
    if StartsWith(s, part) {
      k := 0;
    } else {
      var j := IncludesWitness(s[1..], part);
      k := j + 1;
      assert s[k..k + |part|] == s[1..][j..j + |part|];
    }
  }

  // ---------------------------------------------------------------------------
  // `parseInt(value)` with no radix: leading white space is skipped, a sign
  // is read, a `0x`/`0X` prefix selects base 16, and the longest run of
  // digits that follows is the value; no digit at all gives NaN (None).

  /** The characters `parseInt` skips before the number: the ECMAScript
      WhiteSpace and LineTerminator code points. */
  predicate IsJsSpace(c: char) {
    var k := c as int;
    (0x09 <= k <= 0x0D) || k == 0x20 || k == 0xA0 || k == 0x1680
    || (0x2000 <= k <= 0x200A) || k == 0x2028 || k == 0x2029
    || k == 0x202F || k == 0x205F || k == 0x3000 || k == 0xFEFF
  }

  function DigitValue(c: char): (d: int)
    ensures -1 <= d < 36
  {
    if '0' <= c <= '9' then c as int - '0' as int
    else if 'a' <= c <= 'z' then c as int - 'a' as int + 10
    else if 'A' <= c <= 'Z' then c as int - 'A' as int + 10
    else -1
  }

  predicate IsDigit(c: char, radix: nat) {
    0 <= DigitValue(c) < radix
  }

  function SkipSpaces(s: string): (r: string)
    ensures |r| <= |s| && r == s[|s| - |r|..]
    ensures forall i :: 0 <= i < |s| - |r| ==> IsJsSpace(s[i])
    ensures r == [] || !IsJsSpace(r[0])
  {
    if s != [] && IsJsSpace(s[0]) then SkipSpaces(s[1..]) else s
  }

  /** Length of the longest prefix of `s` made of digits of the radix. */
  function DigitRun(s: string, radix: nat): (n: nat)
    ensures n <= |s|
    ensures forall i :: 0 <= i < n ==> IsDigit(s[i], radix)
    ensures n < |s| ==> !IsDigit(s[n], radix)
  {
    if s != [] && IsDigit(s[0], radix) then 1 + DigitRun(s[1..], radix) else 0
  }

  /** Value of a string of digits, most significant first. */
  function DigitsValue(s: string, radix: nat): (v: int)
    ensures (forall i :: 0 <= i < |s| ==> IsDigit(s[i], radix)) ==> v >= 0
  {
    if s == [] then 0 else DigitsValue(s[..|s| - 1], radix) * radix + DigitValue(s[|s| - 1])
  }

  /** The unsigned part of `parseInt`: a `0x` or `0X` prefix selects base 16,
      then the longest run of digits is read. NaN (`None`) exactly when no
      digit follows the prefix. */
  function ParseUnsigned(s: string): (r: Option<int>)
    ensures r.Some? ==> r.value >= 0
    ensures r.None? <==>
              var hex := |s| >= 2 && s[0] == '0' && (s[1] == 'x' || s[1] == 'X');
              var body := if hex then s[2..] else s;
              body == [] || !IsDigit(body[0], if hex then 16 else 10)
  {
    var hex := |s| >= 2 && s[0] == '0' && (s[1] == 'x' || s[1] == 'X');
    var radix := if hex then 16 else 10;
    var body := if hex then s[2..] else s;
    var n := DigitRun(body, radix);
    if n == 0 then None else Some(DigitsValue(body[..n], radix))
  }

  function ParseInt(s: string): Option<int>
  {
    var t := SkipSpaces(s);
    if t != [] && (t[0] == '-' || t[0] == '+') then
      match ParseUnsigned(t[1..])
      case None => None
      case Some(v) => Some(if t[0] == '-' then -v else v)
    else
      match ParseUnsigned(t)
      case None => None
      case Some(v) => Some(v)
  }

  /** The decimal text of a natural number, as `String(n)` writes it. */
  function DecimalString(n: nat): (s: string)
    ensures |s| >= 1
    ensures forall i :: 0 <= i < |s| ==> '0' <= s[i] <= '9'
    ensures |s| >= 2 ==> s[0] != '0'
  {
    if n < 10 then [('0' as int + n) as char]
    else DecimalString(n / 10) + [('0' as int + n % 10) as char]
  }

  lemma {:induction false} DecimalStringValue(n: nat)
    ensures DigitsValue(DecimalString(n), 10) == n
  {
    var s := DecimalString(n);
    if n >= 10 {
      assert s[..|s| - 1] == DecimalString(n / 10);
      DecimalStringValue(n / 10);
    }
  }

  /** `parseInt(String(n)) === n`: a number written in decimal reads back. */
  lemma ParseIntDecimal(n: nat)
    ensures ParseInt(DecimalString(n)) == Some(n)
  {
    var s := DecimalString(n);
    assert !IsJsSpace(s[0]) && s[0] != '-' && s[0] != '+';
    assert SkipSpaces(s) == s;
    ParseUnsignedDecimal(n);
  }

  lemma ParseUnsignedDecimal(n: nat)
    ensures ParseUnsigned(DecimalString(n)) == Some(n)
  {
    var s := DecimalString(n);
    assert !(|s| >= 2 && s[0] == '0');
    DigitRunAll(s, 10);
    assert s[..|s|] == s;
    DecimalStringValue(n);
  }

  lemma {:induction false} DigitRunAll(s: string, radix: nat)
    requires forall i :: 0 <= i < |s| ==> IsDigit(s[i], radix)
    ensures DigitRun(s, radix) == |s|
  {
    if s != [] {
      DigitRunAll(s[1..], radix);
    }
  }
}
