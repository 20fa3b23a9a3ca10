/**
 * String primitives of the JavaScript runtime that the registration forms
 * rely on: the `\s` / `trim` whitespace set, `\d` digits, `toUpperCase`,
 * `replace(/\D/g, '')`, `slice(0, n)`, the regular expressions of the
 * field validators, number-to-string conversion and `parseInt`.
 */
module Text {
  import opened Wrappers

  // ---------------------------------------------------------------------
  // Character classes
  // ---------------------------------------------------------------------

  /** The characters matched by `\s` and removed by `String.prototype.trim`
      (ECMAScript WhiteSpace and LineTerminator). */
  predicate IsWhitespace(c: char) {
    c == '\t' || c == '\n' || c == '\U{0B}' || c == '\U{0C}' || c == '\r' || c == ' '
    || c == '\U{A0}' || c == '\U{1680}' || ('\U{2000}' <= c <= '\U{200A}')
    || c == '\U{2028}' || c == '\U{2029}' || c == '\U{202F}' || c == '\U{205F}'
    || c == '\U{3000}' || c == '\U{FEFF}'
  }

  /** `\d` without the `u` flag, and `[0-9]`. */
  predicate IsDigit(c: char) { '0' <= c <= '9' }

  predicate IsUpper(c: char) { 'A' <= c <= 'Z' }

  predicate IsLower(c: char) { 'a' <= c <= 'z' }

  /** `[A-Z0-9]` */
  predicate IsUpperAlnum(c: char) { IsUpper(c) || IsDigit(c) }

  predicate AllDigits(s: string) { forall i :: 0 <= i < |s| ==> IsDigit(s[i]) }

  predicate AllUpper(s: string) { forall i :: 0 <= i < |s| ==> IsUpper(s[i]) }

  predicate AllUpperAlnum(s: string) { forall i :: 0 <= i < |s| ==> IsUpperAlnum(s[i]) }

  predicate NoLower(s: string) { forall i :: 0 <= i < |s| ==> !IsLower(s[i]) }

  /** True iff `s.trim()` would leave something behind. */
  predicate HasVisible(s: string) { exists i :: 0 <= i < |s| && !IsWhitespace(s[i]) }

  // ---------------------------------------------------------------------
  // trim
  // ---------------------------------------------------------------------

  /** Drops the leading whitespace. */
  function TrimStart(s: string): string {
    if s == [] || !IsWhitespace(s[0]) then s else TrimStart(s[1..])
  }

  /** Drops the trailing whitespace. */
  function TrimEnd(s: string): string {
    if s == [] || !IsWhitespace(s[|s| - 1]) then s else TrimEnd(s[..|s| - 1])
  }

  /** `String.prototype.trim` */
  function Trim(s: string): string {
    TrimEnd(TrimStart(s))
  }

  /** What `TrimStart` removes is whitespace, and what it keeps starts visibly. */
  lemma {:induction false} TrimStartSpec(s: string)
    ensures |TrimStart(s)| <= |s| && TrimStart(s) == s[|s| - |TrimStart(s)|..]
    ensures TrimStart(s) == [] || !IsWhitespace(TrimStart(s)[0])
    ensures forall i :: 0 <= i < |s| - |TrimStart(s)| ==> IsWhitespace(s[i])
  {
    if s != [] && IsWhitespace(s[0]) {
      var t := s[1..];
      TrimStartSpec(t);
      assert TrimStart(s) == TrimStart(t);
      assert t[|t| - |TrimStart(t)|..] == s[|s| - |TrimStart(t)|..];
      forall i | 0 <= i < |s| - |TrimStart(s)| ensures IsWhitespace(s[i]) {
        if i > 0 { assert s[i] == t[i - 1]; }
      }
    }
  }

  /** What `TrimEnd` removes is whitespace, and what it keeps ends visibly. */
  lemma {:induction false} TrimEndSpec(s: string)
    ensures |TrimEnd(s)| <= |s| && TrimEnd(s) == s[..|TrimEnd(s)|]
    ensures TrimEnd(s) == [] || !IsWhitespace(TrimEnd(s)[|TrimEnd(s)| - 1])
    ensures forall i :: |TrimEnd(s)| <= i < |s| ==> IsWhitespace(s[i])
  {
    if s != [] && IsWhitespace(s[|s| - 1]) {
      TrimEndSpec(s[..|s| - 1]);
    }
  }

  /** `s.trim().length > 0` holds exactly when `s` has a non-whitespace character. */
  lemma TrimNonEmptyIff(s: string)
    ensures |Trim(s)| > 0 <==> HasVisible(s)
  {
    var t := TrimStart(s);
    var u := TrimEnd(t);
    TrimStartSpec(s);
    TrimEndSpec(t);
    if HasVisible(s) {
      var i :| 0 <= i < |s| && !IsWhitespace(s[i]);
      assert |s| - |t| <= i;
      assert t != [] && !IsWhitespace(t[0]);
      assert IsWhitespace(t[0]) || |u| > 0;
    }
    if |u| > 0 {
      assert u[0] == t[0] == s[|s| - |t|];
    }
  }

  // ---------------------------------------------------------------------
  // Normalisation: replace(/\D/g, ''), replace(/[^A-Z0-9]/g, ''),
  // toUpperCase(), slice(0, n)
  // ---------------------------------------------------------------------

  /** `s.replace(/\D/g, '')`: the digits of `s`, in order. */
  function KeepDigits(s: string): (r: string)
    ensures AllDigits(r) && |r| <= |s|
    ensures forall c :: c in r <==> c in s && IsDigit(c)
    ensures AllDigits(s) ==> r == s
  {
    if s == [] then []
    else (if IsDigit(s[0]) then [s[0]] else []) + KeepDigits(s[1..])
  }

  /** `s.replace(/[^A-Z0-9]/g, '')`: the upper-case letters and digits of `s`, in order. */
  function KeepUpperAlnum(s: string): (r: string)
    ensures AllUpperAlnum(r) && |r| <= |s|
    ensures forall c :: c in r <==> c in s && IsUpperAlnum(c)
    ensures AllUpperAlnum(s) ==> r == s
  {
    if s == [] then []
    else (if IsUpperAlnum(s[0]) then [s[0]] else []) + KeepUpperAlnum(s[1..])
  }

  /** Filtering distributes over concatenation, so the kept digits stay in
      their order and keep their multiplicity. */
  lemma {:induction false} KeepDigitsAppend(s: string, t: string)
    ensures KeepDigits(s + t) == KeepDigits(s) + KeepDigits(t)
  {
    if s == [] {
      assert s + t == t;
    } else {
      assert (s + t)[1..] == s[1..] + t;
      KeepDigitsAppend(s[1..], t);
    }
  }

  /** One character is kept exactly when it is a digit. */
  lemma KeepDigitsChar(c: char)
    ensures KeepDigits([c]) == (if IsDigit(c) then [c] else [])
  {
    assert [c][1..] == [];
  }

  /** Filtering to `[A-Z0-9]` distributes over concatenation. */
  lemma {:induction false} KeepUpperAlnumAppend(s: string, t: string)
    ensures KeepUpperAlnum(s + t) == KeepUpperAlnum(s) + KeepUpperAlnum(t)
  {
    if s == [] {
      assert s + t == t;
    } else {
      assert (s + t)[1..] == s[1..] + t;
      KeepUpperAlnumAppend(s[1..], t);
    }
  }

  /** One character is kept exactly when it is an upper-case letter or a digit. */
  lemma KeepUpperAlnumChar(c: char)
    ensures KeepUpperAlnum([c]) == (if IsUpperAlnum(c) then [c] else [])
  {
    assert [c][1..] == [];
  }

  /** `s.slice(0, n)` */
  function Take(s: string, n: nat): (r: string)
    ensures |r| <= n && |r| <= |s| && r == s[..|r|]
    ensures |s| <= n ==> r == s
    ensures |s| > n ==> |r| == n
  {
    if |s| <= n then s else s[..n]
  }

  function UpperChar(c: char): (u: char)
    ensures !IsLower(u)
    ensures !IsLower(c) ==> u == c
  {
    if IsLower(c) then (c as int - 32) as char else c
  }

  /** `toUpperCase` on the letters a-z; every other character is kept. */
  function ToUpperAscii(s: string): (r: string)
    ensures |r| == |s| && NoLower(r)
    ensures forall i :: 0 <= i < |s| ==> r[i] == UpperChar(s[i])
    ensures NoLower(s) ==> r == s
  {
    if s == [] then [] else [UpperChar(s[0])] + ToUpperAscii(s[1..])
  }

  /** Digits-only normalisation with a length cap keeps only digits, respects the
      cap, and applying it twice is the same as applying it once. */
  lemma {:induction false} DigitCapIdempotent(s: string, n: nat)
    ensures AllDigits(Take(KeepDigits(s), n)) && |Take(KeepDigits(s), n)| <= n
    ensures Take(KeepDigits(Take(KeepDigits(s), n)), n) == Take(KeepDigits(s), n)
  {
    var d := KeepDigits(s);
    var t := Take(d, n);
    assert t == d[..|t|];
    assert AllDigits(t);
  }

  /** Upper-casing then keeping `[A-Z0-9]` is idempotent and yields only `[A-Z0-9]`. */
  lemma {:induction false} UpperAlnumIdempotent(s: string)
    ensures AllUpperAlnum(KeepUpperAlnum(ToUpperAscii(s)))
    ensures KeepUpperAlnum(ToUpperAscii(KeepUpperAlnum(ToUpperAscii(s)))) == KeepUpperAlnum(ToUpperAscii(s))
  {
    var k := KeepUpperAlnum(ToUpperAscii(s));
    assert NoLower(k) by {
      forall i | 0 <= i < |k| ensures !IsLower(k[i]) { assert IsUpperAlnum(k[i]); }
    }
  }

  /** Upper-casing then truncating is idempotent and leaves no lower-case letter. */
  lemma {:induction false} UpperCapIdempotent(s: string, n: nat)
    ensures NoLower(Take(ToUpperAscii(s), n)) && |Take(ToUpperAscii(s), n)| <= n
    ensures Take(ToUpperAscii(Take(ToUpperAscii(s), n)), n) == Take(ToUpperAscii(s), n)
  {
    var u := ToUpperAscii(s);
    var t := Take(u, n);
    assert t == u[..|t|];
    assert NoLower(t);
  }

  // ---------------------------------------------------------------------
  // The validators' regular expressions
  // ---------------------------------------------------------------------

  /** `^\d{n}$` */
  predicate IsDigitsOfLength(s: string, n: nat) { |s| == n && AllDigits(s) }

  /** `^[6-9]\d{9}$` */
  predicate IsIndianMobile(s: string) { |s| == 10 && '6' <= s[0] <= '9' && AllDigits(s) }

  /** `^[A-Z]{5}[0-9]{4}[A-Z]{1}$` */
  predicate IsPan(s: string) {
    |s| == 10 && AllUpper(s[..5]) && AllDigits(s[5..9]) && IsUpper(s[9])
  }

  /** `^[LUS][0-9]{5}[A-Z]{2}[0-9]{4}[A-Z]{3}[0-9]{6}$` */
  predicate IsCin(s: string) {
    && |s| == 21
    && (s[0] == 'L' || s[0] == 'U' || s[0] == 'S')
    && AllDigits(s[1..6]) && AllUpper(s[6..8]) && AllDigits(s[8..12])
    && AllUpper(s[12..15]) && AllDigits(s[15..])
  }

  /** `[^\s@]+` */
  predicate IsEmailPart(s: string) {
    |s| > 0 && forall i :: 0 <= i < |s| ==> !IsWhitespace(s[i]) && s[i] != '@'
  }

  /** `^[^\s@]+@[^\s@]+\.[^\s@]+$`: one `@` with something before it, and after it
      a `.` that has something on both sides; no whitespace and no second `@`. */
  predicate IsEmail(s: string) {
    exists k :: 0 < k < |s| && s[k] == '@' && IsEmailPart(s[..k]) && IsEmailPart(s[k + 1..])
      && exists j :: k + 1 < j < |s| - 1 && s[j] == '.'
  }

  // ---------------------------------------------------------------------
  // Numbers as text: template-literal interpolation and parseInt
  // ---------------------------------------------------------------------

  function DigitChar(d: nat): (c: char)
    requires d < 10
    ensures IsDigit(c)
  {
    ('0' as int + d) as char
  }

  /** The decimal rendering of a non-negative integer, as `${n}` gives it. */
  function NatToString(n: nat): (r: string)
    ensures |r| >= 1 && AllDigits(r)
    ensures |r| > 1 ==> r[0] != '0'
    decreases n
  {
    if n < 10 then [DigitChar(n)] else NatToString(n / 10) + [DigitChar(n % 10)]
  }

  function Pow10(k: nat): (p: nat)
    ensures p >= 1
  {
    if k == 0 then 1 else 10 * Pow10(k - 1)
  }

  /** A number with exactly `k` decimal digits is rendered with `k` characters. */
  lemma {:induction false} NatToStringWidth(n: nat, k: nat)
    requires 1 <= k && Pow10(k - 1) <= n < Pow10(k)
    ensures |NatToString(n)| == k
    decreases k
  {
    if k > 1 {
      var p := Pow10(k - 2);
      assert Pow10(k - 1) == 10 * p;
      assert Pow10(k) == 100 * p;
      assert p <= n / 10 < 10 * p;
      NatToStringWidth(n / 10, k - 1);
    }
  }

  predicate IsHexDigit(c: char) { IsDigit(c) || 'a' <= c <= 'f' || 'A' <= c <= 'F' }

  predicate IsRadixDigit(c: char, hex: bool) { if hex then IsHexDigit(c) else IsDigit(c) }

  /** The value of a digit of the radix (0 for any other character). */
  function DigitValue(c: char): nat {
    if IsDigit(c) then c as int - '0' as int
    else if 'a' <= c <= 'f' then c as int - 'a' as int + 10
    else if 'A' <= c <= 'F' then c as int - 'A' as int + 10
    else 0
  }

  /** The longest prefix of `s` made of digits of the radix. */
  function DigitPrefix(s: string, hex: bool): string {
    if s == [] || !IsRadixDigit(s[0], hex) then [] else [s[0]] + DigitPrefix(s[1..], hex)
  }

  /** `DigitPrefix` is the longest run of radix digits at the front. */
  lemma {:induction false} DigitPrefixSpec(s: string, hex: bool)
    ensures |DigitPrefix(s, hex)| <= |s| && DigitPrefix(s, hex) == s[..|DigitPrefix(s, hex)|]
    ensures forall i :: 0 <= i < |DigitPrefix(s, hex)| ==> IsRadixDigit(s[i], hex)
    ensures |DigitPrefix(s, hex)| == |s| || !IsRadixDigit(s[|DigitPrefix(s, hex)|], hex)
  {
    if s != [] && IsRadixDigit(s[0], hex) {
      DigitPrefixSpec(s[1..], hex);
      assert forall i :: 1 <= i < |DigitPrefix(s, hex)| ==> s[i] == s[1..][i - 1];
    }
  }

  /** A decimal digit string is its own decimal prefix. */
  lemma {:induction false} DigitPrefixOfDigits(s: string)
    requires AllDigits(s)
    ensures DigitPrefix(s, false) == s
  {
    if s != [] {
      DigitPrefixOfDigits(s[1..]);
    }
  }

  /** The value of a digit string in radix 10 or 16. */
  function DigitsValue(z: string, hex: bool): nat {
    if z == [] then 0
    else DigitsValue(z[..|z| - 1], hex) * (if hex then 16 else 10) + DigitValue(z[|z| - 1])
  }

  /** `parseInt(s)` with no radix; `None` stands for NaN. Leading whitespace is
      skipped, one sign is read, a `0x`/`0X` prefix selects radix 16, and the longest
      run of digits that follows is the value; no digit at all gives NaN. */
  function ParseInt(s: string): Option<int> {
    var t := TrimStart(s);
    var negative := |t| > 0 && t[0] == '-';
    var u := if |t| > 0 && (t[0] == '-' || t[0] == '+') then t[1..] else t;
    var hex := |u| >= 2 && u[0] == '0' && (u[1] == 'x' || u[1] == 'X');
    var z := DigitPrefix(if hex then u[2..] else u, hex);
    if z == [] then None
    else
      var v: int := DigitsValue(z, hex);
      Some(if negative then -v else v)
  }

  lemma {:induction false} DecimalValueOfNatToString(n: nat)
    ensures DigitsValue(NatToString(n), false) == n
    decreases n
  {
    var s := NatToString(n);
    if n >= 10 {
      assert s[..|s| - 1] == NatToString(n / 10);
      DecimalValueOfNatToString(n / 10);
    }
  }

  /** `parseInt` reads back what `${n}` wrote. */
  lemma ParseIntOfNatToString(n: nat)
    ensures ParseInt(NatToString(n)) == Some(n)
  {
    var s := NatToString(n);
    assert IsDigit(s[0]);
    assert TrimStart(s) == s;
    assert |s| >= 2 ==> IsDigit(s[1]);
    DigitPrefixOfDigits(s);
    DecimalValueOfNatToString(n);
  }

  /** An empty or blank answer is NaN. */
  lemma ParseIntOfBlank(s: string)
    requires !HasVisible(s)
    ensures ParseInt(s) == None
  {
    TrimStartSpec(s);
    assert TrimStart(s) == [];
  }
}
