// Character classes and string helpers with the meaning JavaScript gives
// them, restricted to ASCII: `\s`, `\d`, `\w`, `toLowerCase`, `trim`, the
// decimal digits `parseInt` reads, and the truthiness of `x || 1`.
module JsText {

  datatype Option<T> = None | Some(value: T)

  /** `\s` restricted to ASCII: space, tab, line feed, vertical tab, form feed, carriage return. */
  predicate IsSpace(c: char) {
    c == ' ' || c == '\t' || c == '\n' || c == '\U{000B}' || c == '\U{000C}' || c == '\r'
  }

  /** The characters a regular-expression `.` does not match. */
  predicate IsLineTerminator(c: char) {
    c == '\n' || c == '\r' || c == '\U{2028}' || c == '\U{2029}'
  }

  predicate IsDigit(c: char) { '0' <= c <= '9' }
  predicate IsLower(c: char) { 'a' <= c <= 'z' }
  predicate IsUpper(c: char) { 'A' <= c <= 'Z' }

  /** `\w`: the characters on one side of a `\b` word boundary. */
  predicate IsWordChar(c: char) { IsLower(c) || IsUpper(c) || IsDigit(c) || c == '_' }

  predicate AllDigits(s: string) { forall i :: 0 <= i < |s| ==> IsDigit(s[i]) }

  function LowerChar(c: char): (d: char)
    ensures !IsUpper(d)
    ensures IsUpper(c) ==> IsLower(d)
    ensures !IsUpper(c) ==> d == c
  {
    if IsUpper(c) then (c as int + 32) as char else c
  }

  /** `toLowerCase` on ASCII letters; every other character is kept. */
  function ToLower(s: string): (r: string)
    ensures |r| == |s|
    ensures forall i :: 0 <= i < |r| ==> !IsUpper(r[i])
    ensures forall i :: 0 <= i < |r| && !IsUpper(s[i]) ==> r[i] == s[i]
  {
    seq(|s|, i requires 0 <= i < |s| => LowerChar(s[i]))
  }

  /** The first offset at or after `i` that does not hold whitespace (or `|s|`). */
  function SkipSpaces(s: string, i: nat): (k: nat)
    requires i <= |s|
    ensures i <= k <= |s|
    ensures forall j :: i <= j < k ==> IsSpace(s[j])
    ensures k < |s| ==> !IsSpace(s[k])
    decreases |s| - i
  {
    if i < |s| && IsSpace(s[i]) then SkipSpaces(s, i + 1) else i
  }

  /** The end of `s[lo..e]` once its trailing whitespace is dropped. */
  function SkipSpacesBack(s: string, lo: nat, e: nat): (k: nat)
    requires lo <= e <= |s|
    ensures lo <= k <= e
    ensures forall j :: k <= j < e ==> IsSpace(s[j])
    ensures k > lo ==> !IsSpace(s[k - 1])
  {
    if e > lo && IsSpace(s[e - 1]) then SkipSpacesBack(s, lo, e - 1) else e
  }

  /** `trimStart`. */
  function TrimStart(s: string): string {
    s[SkipSpaces(s, 0)..]
  }

  /** `r` is `s` with the whitespace before offset `a` and after `a + |r|` dropped. */
  predicate TrimmedAt(s: string, r: string, a: int) {
    0 <= a <= a + |r| <= |s| && r == s[a..a + |r|]
    && (forall i :: 0 <= i < a ==> IsSpace(s[i]))
    && (forall i :: a + |r| <= i < |s| ==> IsSpace(s[i]))
  }

  /** `trim`: the slice of `s` left after dropping leading and trailing whitespace. */
  function Trim(s: string): (r: string)
    ensures exists a :: TrimmedAt(s, r, a)
    ensures r != [] ==> !IsSpace(r[0]) && !IsSpace(r[|r| - 1])
  {
    var a := SkipSpaces(s, 0);
    var e := SkipSpacesBack(s, a, |s|);
    assert TrimmedAt(s, s[a..e], a);
    s[a..e]
  }

  /** Text without upper-case letters is its own lower-case form. */
  lemma LowerOfLower(s: string)
    requires forall i :: 0 <= i < |s| ==> !IsUpper(s[i])
    ensures ToLower(s) == s
  {
  }

  /** Text with no whitespace at either end is its own trim. */
  lemma TrimOfTrimmed(s: string)
    requires s != [] ==> !IsSpace(s[0]) && !IsSpace(s[|s| - 1])
    ensures Trim(s) == s
  {
    assert SkipSpaces(s, 0) == 0;
    assert SkipSpacesBack(s, 0, |s|) == |s|;
  }

  /** A string is blank when trimming leaves nothing, i.e. it is all whitespace. */
  lemma BlankIffAllSpace(s: string)
    ensures Trim(s) == [] <==> forall i :: 0 <= i < |s| ==> IsSpace(s[i])
  {
    if Trim(s) != [] {
      var a :| TrimmedAt(s, Trim(s), a);
      assert s[a] == Trim(s)[0];
    }
  }

  function DigitValue(c: char): (d: nat)
    requires IsDigit(c)
    ensures d < 10
  {
    c as int - '0' as int
  }

  function DigitChar(d: nat): (c: char)
    requires d < 10
    ensures IsDigit(c) && DigitValue(c) == d
  {
    ('0' as int + d) as char
  }

  /** The number a run of decimal digits denotes (what `parseInt` reads from it). */
  function DecimalValue(s: string): nat
    requires AllDigits(s)
  {
    if s == [] then 0 else DecimalValue(s[..|s| - 1]) * 10 + DigitValue(s[|s| - 1])
  }

  /** `String(n)` for a natural number: its decimal digits, no leading zero. */
  function NatToDecimal(n: nat): (r: string)
    ensures r != [] && AllDigits(r)
    ensures DecimalValue(r) == n
    ensures |r| > 1 ==> r[0] != '0'
  {
    if n < 10 then [DigitChar(n)]
    else
      var r := NatToDecimal(n / 10) + [DigitChar(n % 10)];
      assert r[..|r| - 1] == NatToDecimal(n / 10);
      r
  }

  /** The longest run of decimal digits at the start of `s`. */
  function DigitPrefix(s: string): (r: string)
    ensures AllDigits(r) && StartsWith(s, r)
    ensures |r| < |s| ==> !IsDigit(s[|r|])
  {
    if s != [] && IsDigit(s[0]) then
      var rest := DigitPrefix(s[1..]);
      assert ([s[0]] + rest)[1..] == rest;
      [s[0]] + rest
    else []
  }

  /** `parseInt(s)` in base 10: leading whitespace, an optional sign, then the
      digits up to the first non-digit; no digit at all is NaN (`None`). */
  function ParseInt(s: string): Option<int> {
    var t := TrimStart(s);
    var digits := DigitPrefix(SignStripped(t));
    var value: int := DecimalValue(digits);
    if digits == [] then None
    else if t[0] == '-' then Some(-value)
    else Some(value)
  }

  /** `s` without a leading '+' or '-'. */
  function SignStripped(s: string): string {
    if s != [] && (s[0] == '-' || s[0] == '+') then s[1..] else s
  }

  /** A run of digits is its own digit prefix. */
  lemma {:induction false} DigitPrefixOfDigits(s: string)
    requires AllDigits(s)
    ensures DigitPrefix(s) == s
  {
    if s != [] {
      DigitPrefixOfDigits(s[1..]);
      assert [s[0]] + s[1..] == s;
    }
  }

  /** A run of digits is read as its value. */
  lemma ParseIntOfDigits(d: string)
    requires d != [] && AllDigits(d)
    ensures ParseInt(d) == Some(DecimalValue(d))
  {
    assert !IsSpace(d[0]);
    assert TrimStart(d) == d;
    assert SignStripped(d) == d;
    DigitPrefixOfDigits(d);
  }

  /** A run of digits after a minus sign is read as its value negated. */
  lemma ParseIntOfNegative(d: string)
    requires d != [] && AllDigits(d)
    ensures ParseInt("-" + d) == Some(-(DecimalValue(d) as int))
  {
    var m := "-" + d;
    assert m[0] == '-' && !IsSpace(m[0]);
    assert TrimStart(m) == m;
    assert m[1..] == d;
    assert SignStripped(m) == d;
    DigitPrefixOfDigits(d);
    assert DigitPrefix(SignStripped(TrimStart(m))) == d;
  }

  /** `parseInt` reads back what `String(n)` writes. */
  lemma ParseIntOfDecimal(n: nat)
    ensures ParseInt(NatToDecimal(n)) == Some(n)
  {
    ParseIntOfDigits(NatToDecimal(n));
  }

  /** JavaScript `x || 1` for a number that may be missing (undefined or NaN): 0 and missing become 1. */
  function OrOne(x: Option<int>): (r: int)
    ensures r != 0
    ensures x.Some? && x.value != 0 ==> r == x.value
    ensures x.None? || x.value == 0 ==> r == 1
  {
    if x.Some? && x.value != 0 then x.value else 1
  }

  predicate StartsWith(s: string, prefix: string) {
    |prefix| <= |s| && s[..|prefix|] == prefix
  }

  /** `s.includes(sub)`. */
  predicate Contains(s: string, sub: string) {
    exists i | 0 <= i <= |s| - |sub| :: OccursAt(s, sub, i)
  }

  predicate OccursAt(s: string, sub: string, i: int) {
    0 <= i && i + |sub| <= |s| && s[i..i + |sub|] == sub
  }

  /** An occurrence starts with the first character of what occurs. */
  lemma OccurrenceStartsWithHead(s: string, sub: string, i: int)
    requires sub != []
    ensures OccursAt(s, sub, i) ==> s[i] == sub[0]
  {
    if OccursAt(s, sub, i) {
      assert s[i..i + |sub|][0] == s[i];
    }
  }

  /** `parts.join(sep)`. */
  function Join(parts: seq<string>, sep: string): (r: string)
    ensures parts == [] ==> r == ""
    ensures |parts| == 1 ==> r == parts[0]
  {
    if parts == [] then ""
    else if |parts| == 1 then parts[0]
    else parts[0] + sep + Join(parts[1..], sep)
  }

  /** `s.replace(/\s/g, '')`. */
  function RemoveSpaces(s: string): (r: string)
    ensures |r| <= |s|
    ensures forall i :: 0 <= i < |r| ==> !IsSpace(r[i])
    ensures (forall i :: 0 <= i < |s| ==> !IsSpace(s[i])) ==> r == s
  {
    if s == [] then ""
    else if IsSpace(s[0]) then RemoveSpaces(s[1..])
    else [s[0]] + RemoveSpaces(s[1..])
  }

  /** The number of whitespace characters in `s`. */
  function SpaceCount(s: string): (n: nat)
    ensures n <= |s|
  {
    if s == [] then 0 else (if IsSpace(s[0]) then 1 else 0) + SpaceCount(s[1..])
  }

  /** One character is dropped exactly when it is whitespace. */
  lemma RemoveSpacesOfChar(c: char)
    ensures IsSpace(c) ==> RemoveSpaces([c]) == ""
    ensures !IsSpace(c) ==> RemoveSpaces([c]) == [c]
  {
    assert [c][1..] == "";
  }

  /** Removing whitespace works piecewise, so it keeps every other character in its order. */
  lemma {:induction false} RemoveSpacesConcat(a: string, b: string)
    ensures RemoveSpaces(a + b) == RemoveSpaces(a) + RemoveSpaces(b)
  {
    if a != [] {
      assert (a + b)[0] == a[0];
      assert (a + b)[1..] == a[1..] + b;
      RemoveSpacesConcat(a[1..], b);
    } else {
      assert a + b == b;
    }
  }

  /** Exactly the whitespace characters are removed. */
  lemma {:induction false} RemoveSpacesLength(s: string)
    ensures |RemoveSpaces(s)| == |s| - SpaceCount(s)
  {
    if s != [] {
      RemoveSpacesLength(s[1..]);
    }
  }
}
