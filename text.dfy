/** String predicates that stand in for the regular expressions and string
    methods of the TypeScript sources. Strings are sequences of Unicode scalar
    values; `Utf16Length` gives the JavaScript `length`, which counts UTF-16
    code units. Case-insensitive matching folds ASCII letters only. */
module Text {
  import opened Optional

  /** JavaScript's `s.length`: characters outside the Basic Multilingual
      Plane take two UTF-16 code units. */
  function Utf16Length(s: string): (n: nat)
    ensures |s| <= n <= 2 * |s|
    ensures (forall i :: 0 <= i < |s| ==> s[i] < '\U{10000}') ==> n == |s|
  {
    if s == [] then 0
    else Utf16Length(s[..|s| - 1]) + (if s[|s| - 1] < '\U{10000}' then 1 else 2)
  }

  /** `s.includes(pat)`: `pat` occurs in `s` at some position. */
  predicate Contains(s: string, pat: string) {
    exists i | 0 <= i <= |s| - |pat| :: pat <= s[i..]
  }

  /** Witness form of `Contains`. */
  lemma ContainsAt(s: string, pat: string, i: nat)
    requires i + |pat| <= |s| && s[i..i + |pat|] == pat
    ensures Contains(s, pat)
  {
    assert pat <= s[i..];
  }

  /** The single-character case of `Contains`. */
  predicate HasChar(s: string, c: char) {
    exists i | 0 <= i < |s| :: s[i] == c
  }

  lemma HasCharContains(s: string, c: char)
    ensures HasChar(s, c) <==> Contains(s, [c])
  {
    if HasChar(s, c) {
      var i :| 0 <= i < |s| && s[i] == c;
      assert [c] <= s[i..];
    }
    if Contains(s, [c]) {
      var i :| 0 <= i <= |s| - 1 && [c] <= s[i..];
      assert s[i] == c;
    }
  }

  /** ASCII lower-casing of one character (`toLowerCase` and the `i` flag). */
  function Lower(c: char): (d: char)
    ensures 'A' <= c <= 'Z' ==> 'a' <= d <= 'z'
    ensures !('A' <= c <= 'Z') ==> d == c
  {
    if 'A' <= c <= 'Z' then (c as int + 32) as char else c
  }

  function LowerStr(s: string): (r: string)
    ensures |r| == |s|
    ensures forall i :: 0 <= i < |s| ==> r[i] == Lower(s[i])
  {
    seq(|s|, i requires 0 <= i < |s| => Lower(s[i]))
  }

  /** The `\s` class of ECMAScript regular expressions (also the set that
      `trim` and `parseInt` skip). */
  predicate IsSpace(c: char) {
    c == ' ' || c == '\t' || c == '\n' || c == '\r' || c == '\U{000B}' || c == '\U{000C}'
    || c == '\U{00A0}' || c == '\U{1680}' || ('\U{2000}' <= c <= '\U{200A}')
    || c == '\U{2028}' || c == '\U{2029}' || c == '\U{202F}' || c == '\U{205F}'
    || c == '\U{3000}' || c == '\U{FEFF}'
  }

  predicate IsDigit(c: char) {
    '0' <= c <= '9'
  }

  /** The `\w` class, which decides where `\b` word boundaries fall. */
  predicate IsWordChar(c: char) {
    ('a' <= c <= 'z') || ('A' <= c <= 'Z') || IsDigit(c) || c == '_'
  }

  /** `/\bw\b/` for a word `w` made of word characters: `w` occurs with no
      word character immediately before or after it. */
  predicate ContainsWord(s: string, w: string) {
    exists i | 0 <= i <= |s| - |w| ::
      w <= s[i..]
      && (i == 0 || !IsWordChar(s[i - 1]))
      && (i + |w| == |s| || !IsWordChar(s[i + |w|]))
  }

  /** `s.trimStart()`. */
  function TrimStart(s: string): (r: string)
    ensures |r| <= |s| && r == s[|s| - |r|..]
    ensures r == [] || !IsSpace(r[0])
    ensures forall i :: 0 <= i < |s| - |r| ==> IsSpace(s[i])
    decreases |s|
  {
    if |s| > 0 && IsSpace(s[0]) then TrimStart(s[1..]) else s
  }

  /** `s.trimEnd()`. */
  function TrimEnd(s: string): (r: string)
    ensures |r| <= |s| && r == s[..|r|]
    ensures r == [] || !IsSpace(r[|r| - 1])
    ensures forall i :: |r| <= i < |s| ==> IsSpace(s[i])
    decreases |s|
  {
    if |s| > 0 && IsSpace(s[|s| - 1]) then TrimEnd(s[..|s| - 1]) else s
  }

  /** `s.trim()`. */
  function Trim(s: string): string {
    TrimEnd(TrimStart(s))
  }

  /** Length of the longest prefix of `s` made of decimal digits. */
  function DigitRun(s: string): (n: nat)
    ensures n <= |s|
    ensures forall i :: 0 <= i < n ==> IsDigit(s[i])
    ensures n < |s| ==> !IsDigit(s[n])
  {
    if |s| > 0 && IsDigit(s[0]) then 1 + DigitRun(s[1..]) else 0
  }

  /** The value of a decimal digit; only digits are ever passed. */
  function DigitValue(c: char): (d: nat)
    ensures d < 10
    ensures IsDigit(c) ==> d == c as int - '0' as int
  {
    if IsDigit(c) then c as int - '0' as int else 0
  }

  /** The value of a string of decimal digits. */
  function DigitsValue(ds: string): nat {
    if ds == [] then 0
    else 10 * DigitsValue(ds[..|ds| - 1]) + DigitValue(ds[|ds| - 1])
  }

  /** What follows one optional leading sign. */
  function Unsigned(t: string): (r: string)
    ensures |r| <= |t|
  {
    if |t| > 0 && (t[0] == '+' || t[0] == '-') then t[1..] else t
  }

  /** The value of the leading run of digits of `body`, negated when
      `negative`; `None` when `body` does not start with a digit. */
  function LeadingInt(body: string, negative: bool): (r: Option<int>)
    ensures r.None? <==> body == [] || !IsDigit(body[0])
    ensures r.Some? ==>
      var v: int := DigitsValue(body[..DigitRun(body)]);
      r.value == if negative then -v else v
  {
    var n := DigitRun(body);
    if n == 0 then None
    else
      var v: int := DigitsValue(body[..n]);
      Some(if negative then -v else v)
  }

  /** `parseInt(s, 10)` on integers: leading white space is skipped, one
      optional sign is read, then the longest run of digits; no digits gives
      `NaN`, here `None`. */
  function ParseInt(s: string): (r: Option<int>)
    ensures r.None? <==> (var body := Unsigned(TrimStart(s)); body == [] || !IsDigit(body[0]))
    ensures r.Some? ==>
      var t := TrimStart(s);
      var body := Unsigned(t);
      var v: int := DigitsValue(body[..DigitRun(body)]);
      r.value == if |t| > 0 && t[0] == '-' then -v else v
  {
    var t := TrimStart(s);
    LeadingInt(Unsigned(t), |t| > 0 && t[0] == '-')
  }

  /** `parseInt(x, 10) || default`: `NaN` and `0` are both falsy. */
  function ParseIntOr(s: string, default: int): (r: int)
    ensures r != 0 || default == 0
    ensures ParseInt(s).None? ==> r == default
    ensures ParseInt(s) == Some(0) ==> r == default
    ensures ParseInt(s).Some? && ParseInt(s).value != 0 ==> r == ParseInt(s).value
  {
    match ParseInt(s)
    case None => default
    case Some(v) => if v == 0 then default else v
  }

  function DigitChar(d: nat): (c: char)
    requires d < 10
    ensures IsDigit(c)
  {
    ('0' as int + d) as char
  }

  /** The decimal rendering of a natural number (`${n}` in a template). */
  function NatToString(n: nat): (s: string)
    ensures |s| > 0
    ensures forall i :: 0 <= i < |s| ==> IsDigit(s[i])
    ensures DigitsValue(s) == n
  {
    if n < 10 then [DigitChar(n)]
    else
      var s := NatToString(n / 10) + [DigitChar(n % 10)];
      assert s[..|s| - 1] == NatToString(n / 10);
      s
  }

  function IntToString(n: int): string {
    if n < 0 then "-" + NatToString(-n) else NatToString(n)
  }

  /** A string of digits is its own leading run. */
  lemma {:induction false} DigitRunAll(s: string)
    requires forall i :: 0 <= i < |s| ==> IsDigit(s[i])
    ensures DigitRun(s) == |s|
    decreases |s|
  {
    if s != [] {
      DigitRunAll(s[1..]);
    }
  }

  /** `parseInt` reads back what `${n}` writes. */
  lemma {:induction false} ParseIntNatToString(n: nat)
    ensures ParseInt(NatToString(n)) == Some(n)
  {
    var d := NatToString(n);
    assert !IsSpace(d[0]);
    assert TrimStart(d) == d;
    assert Unsigned(d) == d;
    LeadingDigits(d, false);
  }

  /** ... and of `-${n}` for a positive `n`. */
  lemma {:induction false} ParseIntNegative(n: nat)
    requires n > 0
    ensures ParseInt("-" + NatToString(n)) == Some(-(n as int))
  {
    var d := NatToString(n);
    var s := "-" + d;
    assert s[0] == '-' && s[1..] == d;
    assert !IsSpace(s[0]);
    assert TrimStart(s) == s;
    assert Unsigned(s) == d;
    LeadingDigits(d, true);
  }

  /** A non-empty string of digits is read in full. */
  lemma {:induction false} LeadingDigits(d: string, negative: bool)
    requires d != [] && forall i :: 0 <= i < |d| ==> IsDigit(d[i])
    ensures var v: int := DigitsValue(d); LeadingInt(d, negative) == Some(if negative then -v else v)
  {
    DigitRunAll(d);
    assert d[..|d|] == d;
  }
}
