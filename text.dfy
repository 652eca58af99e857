/**
 * String helpers standing in for the JavaScript built-ins the vault code calls:
 * `startsWith`, `includes`, ASCII `toLowerCase`, `trim`, `join('')`,
 * `split('.')[1]`, decimal printing and `padStart(2, '0')`.
 */
module Text {
  import opened Wrappers

  predicate StartsWith(s: string, prefix: string) {
    |prefix| <= |s| && s[..|prefix|] == prefix
  }

  /** `s.includes(sub)`: `sub` occurs in `s` at some offset (the empty string occurs everywhere). */
  predicate Contains(s: string, sub: string) {
    exists i | 0 <= i <= |s| - |sub| :: OccursAt(s, sub, i)
  }

  /** `sub` is the slice of `s` that starts at offset `i`. */
  predicate OccursAt(s: string, sub: string, i: int) {
    0 <= i <= |s| - |sub| && s[i..i + |sub|] == sub
  }

  predicate IsDigit(c: char) {
    '0' <= c <= '9'
  }

  /** The regular-expression class `\d` over a whole string (JavaScript's `\d` is ASCII only). */
  predicate AllDigits(s: string) {
    forall i | 0 <= i < |s| :: IsDigit(s[i])
  }

  function LowerChar(c: char): char {
    if 'A' <= c <= 'Z' then (c as int + 32) as char else c
  }

  /** `toLowerCase`, restricted to ASCII letters. */
  function Lower(s: string): (r: string)
    ensures |r| == |s|
    ensures forall i | 0 <= i < |s| :: r[i] == LowerChar(s[i])
  {
    seq(|s|, i requires 0 <= i < |s| => LowerChar(s[i]))
  }

  /** `parts.join('')`. */
  function Join(parts: seq<string>): (r: string)
  {
    if parts == [] then "" else Join(parts[..|parts| - 1]) + parts[|parts| - 1]
  }

  /**
   * Parts of at most one character join to at most one character per part, and reach that
   * length only when every part holds exactly one.
   */
  lemma {:induction false} JoinShortParts(parts: seq<string>)
    requires forall i | 0 <= i < |parts| :: |parts[i]| <= 1
    ensures |Join(parts)| <= |parts|
    ensures |Join(parts)| == |parts| ==> forall i | 0 <= i < |parts| :: |parts[i]| == 1
  {
    if parts != [] {
      var init := parts[..|parts| - 1];
      JoinShortParts(init);
      if |Join(parts)| == |parts| {
        forall i | 0 <= i < |parts| ensures |parts[i]| == 1 {
          if i < |init| {
            assert parts[i] == init[i];
          }
        }
      }
    }
  }

  /** The characters `String.prototype.trim` removes: ECMAScript WhiteSpace and LineTerminator. */
  predicate IsJsSpace(c: char) {
    c == ' ' || c == '\t' || c == '\n' || c == '\r' || c == '\U{000B}' || c == '\U{000C}'
    || c == '\U{00A0}' || c == '\U{1680}' || ('\U{2000}' <= c <= '\U{200A}')
    || c == '\U{2028}' || c == '\U{2029}' || c == '\U{202F}' || c == '\U{205F}'
    || c == '\U{3000}' || c == '\U{FEFF}'
  }

  function TrimStart(s: string): (r: string)
    ensures |r| <= |s| && r == s[|s| - |r|..]
    ensures r == [] || !IsJsSpace(r[0])
    ensures forall i | 0 <= i < |s| - |r| :: IsJsSpace(s[i])
  {
    if s != [] && IsJsSpace(s[0]) then TrimStart(s[1..]) else s
  }

  function TrimEnd(s: string): (r: string)
    ensures |r| <= |s| && r == s[..|r|]
    ensures r == [] || !IsJsSpace(r[|r| - 1])
    ensures forall i | |r| <= i < |s| :: IsJsSpace(s[i])
  {
    if s != [] && IsJsSpace(s[|s| - 1]) then TrimEnd(s[..|s| - 1]) else s
  }

  predicate AllSpace(s: string) {
    forall i | 0 <= i < |s| :: IsJsSpace(s[i])
  }

  /**
   * `s.trim()`: `s` is a run of white space, then `r`, then another run of white space, and `r`
   * neither begins nor ends with white space.
   */
  function Trim(s: string): (r: string)
    ensures |r| <= |s|
    ensures r == [] || (!IsJsSpace(r[0]) && !IsJsSpace(r[|r| - 1]))
    ensures exists i :: OccursAt(s, r, i) && AllSpace(s[..i]) && AllSpace(s[i + |r|..])
  {
    var t := TrimStart(s);
    var r := TrimEnd(t);
    TrimIsPadded(s, t, r);
    r
  }

  /** The witness for `Trim`: `t` is `s` without a leading run of white space, `r` is `t` without a trailing one. */
  lemma TrimIsPadded(s: string, t: string, r: string)
    requires |t| <= |s| && t == s[|s| - |t|..] && forall j | 0 <= j < |s| - |t| :: IsJsSpace(s[j])
    requires |r| <= |t| && r == t[..|r|] && forall j | |r| <= j < |t| :: IsJsSpace(t[j])
    ensures OccursAt(s, r, |s| - |t|) && AllSpace(s[..|s| - |t|]) && AllSpace(s[|s| - |t| + |r|..])
  {
    var i := |s| - |t|;
    assert s[i..i + |r|] == r;
    var head := s[..i];
    forall j | 0 <= j < |head| ensures IsJsSpace(head[j]) {
      assert head[j] == s[j];
    }
    var tail := s[i + |r|..];
    forall j | 0 <= j < |tail| ensures IsJsSpace(tail[j]) {
      assert tail[j] == t[|r| + j];
    }
  }

  /** `field.split('.')[1]` for a field name known to start with `prefix + "."`: the text after the prefix up to the next dot or the end. */
  function SegmentAfter(field: string, prefix: string): (r: string)
    requires StartsWith(field, prefix)
    ensures '.' !in r
    ensures StartsWith(field[|prefix|..], r)
    ensures |prefix| + |r| < |field| ==> field[|prefix| + |r|] == '.'
  {
    UpToDot(field[|prefix|..])
  }

  function UpToDot(s: string): (r: string)
    ensures '.' !in r && StartsWith(s, r)
    ensures |r| < |s| ==> s[|r|] == '.'
  {
    if s == [] || s[0] == '.' then "" else [s[0]] + UpToDot(s[1..])
  }

  function DigitChar(d: nat): char
    requires d < 10
  {
    ('0' as int + d) as char
  }

  function DigitValue(c: char): nat
    requires IsDigit(c)
  {
    c as int - '0' as int
  }

  /** Decimal rendering of a natural number, as `String(n)` gives it. */
  function Decimal(n: nat): (r: string)
    ensures r != [] && AllDigits(r)
    ensures |r| == 1 <==> n < 10
  {
    if n < 10 then [DigitChar(n)] else Decimal(n / 10) + [DigitChar(n % 10)]
  }

  /** The value of a non-empty string of decimal digits. */
  function DigitsValue(s: string): nat
    requires AllDigits(s)
  {
    if s == [] then 0 else DigitsValue(s[..|s| - 1]) * 10 + DigitValue(s[|s| - 1])
  }

  /** Reads a decimal natural number; None unless `s` is a non-empty run of digits. */
  function ParseDecimal(s: string): Option<nat> {
    if s != [] && AllDigits(s) then Some(DigitsValue(s)) else None
  }

  lemma {:induction false} DecimalRoundTrip(n: nat)
    ensures ParseDecimal(Decimal(n)) == Some(n)
  {
    if n < 10 {
      var s := [DigitChar(n)];
      assert s[..0] == [];
      assert DigitsValue(s) == DigitValue(DigitChar(n));
    } else {
      var q, d := n / 10, n % 10;
      DecimalRoundTrip(q);
      var a := Decimal(q);
      assert DigitsValue(a) == q;
      var s := a + [DigitChar(d)];
      assert Decimal(n) == s;
      assert s[..|s| - 1] == a;
      assert DigitValue(DigitChar(d)) == d;
      assert DigitsValue(s) == q * 10 + d;
      assert q * 10 + d == n;
    }
  }

  /** `s.padStart(2, '0')`. */
  function PadStart2(s: string): (r: string)
    ensures |r| == if |s| >= 2 then |s| else 2
    ensures r[|r| - |s|..] == s
    ensures forall i | 0 <= i < |r| - |s| :: r[i] == '0'
  {
    if |s| >= 2 then s else if |s| == 1 then "0" + s else "00"
  }

  /** The index of the first `c` in `s`, if any. */
  function IndexOf(s: string, c: char): (r: Option<nat>)
    ensures r.None? <==> c !in s
    ensures r.Some? ==> r.value < |s| && s[r.value] == c && c !in s[..r.value]
  {
    if s == [] then None
    else if s[0] == c then Some(0)
    else match IndexOf(s[1..], c)
      case None => None
      case Some(i) => assert s[1..][..i] == s[1..i + 1]; Some(i + 1)
  }
}
