/**
 * The few Python string operations the portfolio code relies on, restricted to
 * ASCII: `lower`, `upper`, `strip`, `isalnum`, the substring test `k in s`,
 * string ordering (for `sorted`) and `int(s, base)`.
 */
module Text {
  import opened Wrappers

  // ---------------------------------------------------------------------------
  // Case mapping
  // ---------------------------------------------------------------------------

  function LowerChar(c: char): char {
    if 'A' <= c <= 'Z' then (c as int + 32) as char else c
  }

  function UpperChar(c: char): char {
    if 'a' <= c <= 'z' then (c as int - 32) as char else c
  }

  /** `s.lower()` on ASCII letters; every other character is kept. */
  function Lower(s: string): string {
    seq(|s|, i requires 0 <= i < |s| => LowerChar(s[i]))
  }

  /** `s.upper()` on ASCII letters; every other character is kept. */
  function Upper(s: string): string {
    seq(|s|, i requires 0 <= i < |s| => UpperChar(s[i]))
  }

  /** Lower-casing twice changes nothing more. */
  lemma LowerIdempotent(s: string)
    ensures Lower(Lower(s)) == Lower(s)
  {
    assert forall i :: 0 <= i < |s| ==> LowerChar(LowerChar(s[i])) == LowerChar(s[i]);
  }

  /** Upper-casing twice changes nothing more. */
  lemma UpperIdempotent(s: string)
    ensures Upper(Upper(s)) == Upper(s)
  {
    assert forall i :: 0 <= i < |s| ==> UpperChar(UpperChar(s[i])) == UpperChar(s[i]);
  }

  /** Upper-casing forgets the case of the input. */
  lemma UpperOfLower(s: string)
    ensures Upper(Lower(s)) == Upper(s)
  {
    assert forall i :: 0 <= i < |s| ==> UpperChar(LowerChar(s[i])) == UpperChar(s[i]);
  }

  /** Lower-casing forgets the case of the input. */
  lemma LowerOfUpper(s: string)
    ensures Lower(Upper(s)) == Lower(s)
  {
    assert forall i :: 0 <= i < |s| ==> LowerChar(UpperChar(s[i])) == LowerChar(s[i]);
  }

  // ---------------------------------------------------------------------------
  // Substrings
  // ---------------------------------------------------------------------------

  /** `sub` occurs in `s` starting at index `i`. */
  predicate OccursAt(s: string, sub: string, i: int) {
    0 <= i && i + |sub| <= |s| && s[i..i + |sub|] == sub
  }

  /** Python's `sub in s`. */
  predicate Contains(s: string, sub: string) {
    exists i | 0 <= i <= |s| - |sub| :: OccursAt(s, sub, i)
  }

  /** An occurrence at any index is found by the substring test. */
  lemma ContainsAt(s: string, sub: string, i: int)
    requires OccursAt(s, sub, i)
    ensures Contains(s, sub)
  {
  }

  /** The substring test only succeeds on an actual occurrence. */
  lemma ContainsWitness(s: string, sub: string) returns (i: int)
    requires Contains(s, sub)
    ensures OccursAt(s, sub, i)
  {
    i :| OccursAt(s, sub, i);
  }

  /** Every character of an occurring string is a character of the text. */
  lemma OccurrenceHasChar(s: string, sub: string, j: int)
    requires Contains(s, sub) && 0 <= j < |sub|
    ensures sub[j] in s
  {
    var i := ContainsWitness(s, sub);
    assert s[i..i + |sub|][j] == s[i + j];
  }

  /** A string with a character the text lacks does not occur in it. */
  lemma CharAbsent(s: string, sub: string, j: int)
    requires 0 <= j < |sub| && sub[j] !in s
    ensures !Contains(s, sub)
  {
    if Contains(s, sub) {
      OccurrenceHasChar(s, sub, j);
    }
  }

  lemma OccurrenceStart(s: string, sub: string) returns (i: int)
    requires Contains(s, sub) && |sub| >= 2
    ensures 0 <= i && i + |sub| <= |s| && s[i] == sub[0] && s[i + 1] == sub[1]
  {
    i := ContainsWitness(s, sub);
    assert s[i..i + |sub|][0] == s[i] && s[i..i + |sub|][1] == s[i + 1];
  }

  /** A string does not occur where its first two characters never start together. */
  lemma FirstTwoAbsent(s: string, sub: string)
    requires |sub| >= 2
    requires forall i :: 0 <= i && i + |sub| <= |s| ==> s[i] != sub[0] || s[i + 1] != sub[1]
    ensures !Contains(s, sub)
  {
    if Contains(s, sub) {
      var i := OccurrenceStart(s, sub);
    }
  }

  /** A longer string never occurs in a shorter one. */
  lemma NotContainsLonger(s: string, sub: string)
    requires |sub| > |s|
    ensures !Contains(s, sub)
  {
  }

  // ---------------------------------------------------------------------------
  // Character classes, isalnum and strip
  // ---------------------------------------------------------------------------

  predicate IsAlnumChar(c: char) {
    'a' <= c <= 'z' || 'A' <= c <= 'Z' || '0' <= c <= '9'
  }

  /** `s.isalnum()`: non-empty and made of letters and digits only. */
  predicate IsAlnum(s: string) {
    |s| > 0 && forall i :: 0 <= i < |s| ==> IsAlnumChar(s[i])
  }

  /** The ASCII characters for which `str.isspace()` holds. */
  predicate IsSpace(c: char) {
    c == ' ' || 9 <= c as int <= 13 || 28 <= c as int <= 31
  }

  function StripLeft(s: string): string {
    if |s| > 0 && IsSpace(s[0]) then StripLeft(s[1..]) else s
  }

  function StripRight(s: string): string {
    if |s| > 0 && IsSpace(s[|s| - 1]) then StripRight(s[..|s| - 1]) else s
  }

  /** `s.strip()`: leading and trailing white space removed. */
  function Strip(s: string): string {
    StripRight(StripLeft(s))
  }

  /** Neither end of `s` is white space. */
  predicate Trimmed(s: string) {
    |s| > 0 ==> !IsSpace(s[0]) && !IsSpace(s[|s| - 1])
  }

  lemma {:induction false} StripLeftNoLeadingSpace(s: string)
    ensures |StripLeft(s)| > 0 ==> !IsSpace(StripLeft(s)[0])
  {
    if |s| > 0 && IsSpace(s[0]) {
      StripLeftNoLeadingSpace(s[1..]);
    }
  }

  /** Stripping from the right keeps a non-blank first character in place. */
  lemma {:induction false} StripRightKeepsFirst(s: string)
    ensures |StripRight(s)| <= |s|
    ensures |StripRight(s)| > 0 ==> StripRight(s)[0] == s[0]
    ensures |s| > 0 && !IsSpace(s[0]) ==> |StripRight(s)| > 0
  {
    if |s| > 0 && IsSpace(s[|s| - 1]) {
      StripRightKeepsFirst(s[..|s| - 1]);
    }
  }

  lemma {:induction false} StripRightNoTrailingSpace(s: string)
    ensures |StripRight(s)| > 0 ==> !IsSpace(StripRight(s)[|StripRight(s)| - 1])
  {
    if |s| > 0 && IsSpace(s[|s| - 1]) {
      StripRightNoTrailingSpace(s[..|s| - 1]);
    }
  }

  /** The result of `strip` has no white space at either end. */
  lemma StripTrims(s: string)
    ensures Trimmed(Strip(s))
  {
    var l := StripLeft(s);
    StripLeftNoLeadingSpace(s);
    StripRightKeepsFirst(l);
    StripRightNoTrailingSpace(l);
  }

  /** `strip` leaves a string that is already trimmed as it is. */
  lemma StripOfTrimmed(s: string)
    requires Trimmed(s)
    ensures Strip(s) == s
  {
  }

  /** Upper-casing neither creates nor removes white space at the ends. */
  lemma UpperKeepsTrimmed(s: string)
    requires Trimmed(s)
    ensures Trimmed(Upper(s))
  {
  }

  // ---------------------------------------------------------------------------
  // String order (Python compares strings code point by code point)
  // ---------------------------------------------------------------------------

  /** Python's `a < b` on strings. */
  predicate Less(a: string, b: string) {
    if |a| == 0 then |b| > 0
    else if |b| == 0 then false
    else if a[0] != b[0] then a[0] < b[0]
    else Less(a[1..], b[1..])
  }

  lemma {:induction false} LessIrreflexive(a: string)
    ensures !Less(a, a)
  {
    if |a| > 0 {
      LessIrreflexive(a[1..]);
    }
  }

  lemma {:induction false} LessTotal(a: string, b: string)
    ensures a == b || Less(a, b) || Less(b, a)
  {
    if |a| > 0 && |b| > 0 && a[0] == b[0] {
      LessTotal(a[1..], b[1..]);
      if a[1..] == b[1..] {
        assert a == [a[0]] + a[1..] && b == [b[0]] + b[1..];
      }
    }
  }

  lemma {:induction false} LessTransitive(a: string, b: string, c: string)
    requires Less(a, b) && Less(b, c)
    ensures Less(a, c)
  {
    if |a| > 0 && a[0] == b[0] && b[0] == c[0] {
      LessTransitive(a[1..], b[1..], c[1..]);
    }
  }

  lemma {:induction false} LessAsymmetric(a: string, b: string)
    requires Less(a, b)
    ensures !Less(b, a)
  {
    if |a| > 0 && a[0] == b[0] {
      LessAsymmetric(a[1..], b[1..]);
    }
  }

  // ---------------------------------------------------------------------------
  // int(s, base)
  // ---------------------------------------------------------------------------

  /** The value of a hexadecimal digit (either case), or -1. */
  function DigitValue(c: char): int {
    if '0' <= c <= '9' then c as int - '0' as int
    else if 'a' <= c <= 'f' then c as int - 'a' as int + 10
    else if 'A' <= c <= 'F' then c as int - 'A' as int + 10
    else -1
  }

  predicate AllDigits(s: string, base: nat) {
    forall i :: 0 <= i < |s| ==> 0 <= DigitValue(s[i]) < base
  }

  /** The value of a run of digits, most significant first. */
  function DigitsValue(s: string, base: nat): (v: nat)
    requires AllDigits(s, base)
  {
    if |s| == 0 then 0 else DigitsValue(s[..|s| - 1], base) * base + DigitValue(s[|s| - 1])
  }

  /** A run of digits is worth zero exactly when every digit is zero. */
  lemma {:induction false} DigitsValueZero(s: string, base: nat)
    requires base > 1 && AllDigits(s, base)
    ensures DigitsValue(s, base) == 0 <==> forall i :: 0 <= i < |s| ==> DigitValue(s[i]) == 0
  {
    if |s| > 0 {
      var init := s[..|s| - 1];
      assert forall i :: 0 <= i < |init| ==> init[i] == s[i];
      DigitsValueZero(init, base);
      var high := DigitsValue(init, base);
      if high > 0 {
        assert high * base >= base by { MultiplyAtLeast(high, base); }
      }
    }
  }

  lemma MultiplyAtLeast(a: nat, b: nat)
    requires a >= 1
    ensures a * b >= b
  {
    assert a * b == (a - 1) * b + b;
  }

  /** The digits after the optional sign and, in base 16, the optional `0x`/`0X` prefix. */
  function DigitPart(s: string, base: nat): string {
    var rest := if |s| > 0 && (s[0] == '-' || s[0] == '+') then s[1..] else s;
    if base == 16 && |rest| >= 2 && rest[0] == '0' && (rest[1] == 'x' || rest[1] == 'X')
    then rest[2..] else rest
  }

  /**
   * `int(s, base)` for base 10 or 16: an optional sign, in base 16 an optional
   * `0x` prefix, then at least one digit; anything else raises (None).
   */
  function ParseInt(s: string, base: nat): (r: Option<int>)
    requires base == 10 || base == 16
    ensures r.Some? <==> |DigitPart(s, base)| > 0 && AllDigits(DigitPart(s, base), base)
    ensures r == Some(0) <==>
              |DigitPart(s, base)| > 0 && forall i :: 0 <= i < |DigitPart(s, base)| ==> DigitValue(DigitPart(s, base)[i]) == 0
  {
    var digits := DigitPart(s, base);
    if |digits| > 0 && AllDigits(digits, base) then
      DigitsValueZero(digits, base);
      var v: int := DigitsValue(digits, base);
      Some(if |s| > 0 && s[0] == '-' then -v else v)
    else None
  }
}
