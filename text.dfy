/**
 * The handful of JavaScript string operations the core relies on:
 * `toLowerCase`, `includes`, `startsWith`, `split('@')[0]`, `String(n)`,
 * `padStart(2, '0')` and the ordering `localeCompare` gives to month keys.
 */
module Text {

  /** ASCII lower-casing of one character. */
  function LowerChar(c: char): char {
    if 'A' <= c <= 'Z' then (c as int + 32) as char else c
  }

  /** `s.toLowerCase()`, restricted to ASCII letters. */
  function ToLower(s: string): string {
    seq(|s|, i requires 0 <= i < |s| => LowerChar(s[i]))
  }

  /** `s.startsWith(p)`. */
  predicate IsPrefix(p: string, s: string) {
    |p| <= |s| && s[..|p|] == p
  }

  /** `s` has `sub` as a contiguous piece starting at `i`. */
  predicate OccursAt(s: string, sub: string, i: int) {
    0 <= i && i + |sub| <= |s| && s[i..i + |sub|] == sub
  }

  /** `s.includes(sub)`, written as the scan the runtime performs. */
  function Contains(s: string, sub: string): (r: bool)
    ensures r <==> exists i :: OccursAt(s, sub, i)
    decreases |s|
  {
    if IsPrefix(sub, s) then
      assert OccursAt(s, sub, 0);
      true
    else if s == [] then
      false
    else
      var r := Contains(s[1..], sub);
      if r then
        var i :| OccursAt(s[1..], sub, i);
        assert OccursAt(s, sub, i + 1);
        true
      else
        assert forall i :: OccursAt(s, sub, i) ==> i >= 1 && OccursAt(s[1..], sub, i - 1);
        false
  }

  /** A piece that holds a character `s` lacks does not occur in `s`. */
  lemma MissingCharExcludes(s: string, sub: string, c: char)
    requires c in sub && c !in s
    ensures !Contains(s, sub)
  {
  }

  /** Index of the first `c` in `s`, or `|s|` when there is none. */
  function IndexOf(s: string, c: char): (k: nat)
    ensures k <= |s|
    ensures c !in s[..k]
    ensures k < |s| ==> s[k] == c
    ensures k == |s| <==> c !in s
  {
    if s == [] then 0
    else if s[0] == c then 0
    else 1 + IndexOf(s[1..], c)
  }

  /** `s.split(c)[0]`: everything before the first `c` (all of `s` when there is none). */
  function BeforeFirst(s: string, c: char): string {
    s[..IndexOf(s, c)]
  }

  /** `s.split(c)[1]`: the piece between the first and the second `c` (empty if there is no `c`). */
  function SecondPiece(s: string, c: char): string {
    var k := IndexOf(s, c);
    if k == |s| then "" else BeforeFirst(s[k + 1..], c)
  }

  // ---------------------------------------------------------------------
  // Decimal rendering of integers
  // ---------------------------------------------------------------------

  function DigitChar(d: int): char
    requires 0 <= d < 10
  {
    ('0' as int + d) as char
  }

  predicate IsDigit(c: char) {
    '0' <= c <= '9'
  }

  predicate AllDigits(s: string) {
    forall i :: 0 <= i < |s| ==> IsDigit(s[i])
  }

  /** `String(n)` for a natural number: decimal digits, no leading zeros. */
  function NatToString(n: nat): (r: string)
    ensures |r| >= 1 && AllDigits(r)
    ensures n >= 10 ==> r[0] != '0'
  {
    if n < 10 then [DigitChar(n)] else NatToString(n / 10) + [DigitChar(n % 10)]
  }

  /** `String(n)` for any integer. */
  function IntToString(n: int): string {
    if n < 0 then "-" + NatToString(-n) else NatToString(n)
  }

  /** `String(n).padStart(2, '0')` for `n < 100`. */
  function Pad2(n: nat): (r: string)
    requires n < 100
    ensures |r| == 2 && AllDigits(r)
  {
    [DigitChar(n / 10), DigitChar(n % 10)]
  }

  // ---------------------------------------------------------------------
  // Code-unit order of strings
  // ---------------------------------------------------------------------

  /** `a` sorts strictly before `b`, comparing character codes from the left. */
  predicate LexLess(a: string, b: string)
    decreases |a|
  {
    if a == [] then b != []
    else if b == [] then false
    else a[0] < b[0] || (a[0] == b[0] && LexLess(a[1..], b[1..]))
  }

  lemma {:induction false} LexLessIrreflexive(a: string)
    ensures !LexLess(a, a)
    decreases |a|
  {
    if a != [] { LexLessIrreflexive(a[1..]); }
  }

  lemma {:induction false} LexLessTransitive(a: string, b: string, c: string)
    requires LexLess(a, b) && LexLess(b, c)
    ensures LexLess(a, c)
    decreases |a|
  {
    if a != [] && b != [] && c != [] && a[0] == b[0] == c[0] {
      LexLessTransitive(a[1..], b[1..], c[1..]);
    }
  }

  lemma {:induction false} LexLessTotal(a: string, b: string)
    requires a != b
    ensures LexLess(a, b) || LexLess(b, a)
    decreases |a|
  {
    if a != [] && b != [] && a[0] == b[0] {
      assert a == [a[0]] + a[1..] && b == [b[0]] + b[1..];
      LexLessTotal(a[1..], b[1..]);
    }
  }

  lemma {:induction false} LexLessAsymmetric(a: string, b: string)
    requires LexLess(a, b)
    ensures !LexLess(b, a)
    decreases |a|
  {
    if a != [] && b != [] && a[0] == b[0] {
      LexLessAsymmetric(a[1..], b[1..]);
    }
  }

  // ---------------------------------------------------------------------
  // Digit strings compared as numbers
  // ---------------------------------------------------------------------

  function DigitValue(c: char): nat
    requires IsDigit(c)
  {
    c as int - '0' as int
  }

  /** The number a string of decimal digits denotes. */
  function DigitsValue(s: string): nat
    requires AllDigits(s)
  {
    if s == [] then 0 else DigitsValue(s[..|s| - 1]) * 10 + DigitValue(s[|s| - 1])
  }

  function Pow10(k: nat): nat {
    if k == 0 then 1 else 10 * Pow10(k - 1)
  }

  lemma {:induction false} NatToStringValue(n: nat)
    ensures DigitsValue(NatToString(n)) == n
    decreases n
  {
    var s := NatToString(n);
    if n >= 10 {
      NatToStringValue(n / 10);
      assert s[..|s| - 1] == NatToString(n / 10);
    }
  }

  /** Four-digit numbers print as exactly four characters. */
  lemma NatToStringFourDigits(n: nat)
    requires 1000 <= n <= 9999
    ensures |NatToString(n)| == 4
  {
    assert |NatToString(n / 1000)| == 1;
    assert n / 100 / 10 == n / 1000;
    assert |NatToString(n / 100)| == 2;
    assert n / 10 / 10 == n / 100;
    assert |NatToString(n / 10)| == 3;
  }

  lemma Pad2Value(n: nat)
    requires n < 100
    ensures DigitsValue(Pad2(n)) == n
  {
    var s := Pad2(n);
    assert s[..1] == [DigitChar(n / 10)];
    assert DigitsValue(s[..1][..0]) == 0;
  }

  lemma {:induction false} DigitsValueBound(s: string)
    requires AllDigits(s)
    ensures DigitsValue(s) < Pow10(|s|)
    decreases |s|
  {
    if s != [] {
      DigitsValueBound(s[..|s| - 1]);
    }
  }

  lemma ShiftDigit(d: nat, p: nat, r: nat, c: nat)
    ensures (d * p + r) * 10 + c == d * (10 * p) + (r * 10 + c)
  {
  }

  /** The leading digit weighs `10^(|s| - 1)`. */
  lemma {:induction false} DigitsValueFront(s: string)
    requires AllDigits(s) && s != []
    ensures DigitsValue(s) == DigitValue(s[0]) * Pow10(|s| - 1) + DigitsValue(s[1..])
    decreases |s|
  {
    if |s| > 1 {
      var init := s[..|s| - 1];
      DigitsValueFront(init);
      assert s[1..][..|s| - 2] == init[1..];
      ShiftDigit(DigitValue(s[0]), Pow10(|s| - 2), DigitsValue(init[1..]), DigitValue(s[|s| - 1]));
    } else {
      assert s[..0] == [] && s[1..] == [];
    }
  }

  /** `q * p + r < (q + 1) * p <= q' * p` when `r < p` and `q < q'`. */
  lemma LeadingDigitDecides(q: nat, r: nat, q': nat, r': nat, p: nat)
    requires q < q' && r < p
    ensures q * p + r < q' * p + r'
  {
    assert (q + 1) * p == q * p + p;
    assert (q + 1) * p <= q' * p;
  }

  /** Digit strings of one length whose first digits differ. */
  lemma LeadingDigitLess(a: string, b: string)
    requires AllDigits(a) && AllDigits(b) && |a| == |b| && a != []
    requires a[0] < b[0]
    ensures LexLess(a, b) && DigitsValue(a) < DigitsValue(b)
  {
    DigitsValueFront(a);
    DigitsValueFront(b);
    DigitsValueBound(a[1..]);
    LeadingDigitDecides(DigitValue(a[0]), DigitsValue(a[1..]), DigitValue(b[0]), DigitsValue(b[1..]), Pow10(|a| - 1));
  }

  /** For digit strings of one length, the code-unit order is the numeric order. */
  lemma {:induction false} DigitOrder(a: string, b: string)
    requires AllDigits(a) && AllDigits(b) && |a| == |b|
    ensures LexLess(a, b) <==> DigitsValue(a) < DigitsValue(b)
    decreases |a|
  {
    if a != [] {
      if a[0] < b[0] {
        LeadingDigitLess(a, b);
      } else if b[0] < a[0] {
        LeadingDigitLess(b, a);
        LexLessAsymmetric(b, a);
      } else {
        DigitsValueFront(a);
        DigitsValueFront(b);
        DigitOrder(a[1..], b[1..]);
      }
    }
  }

  /** Comparing two strings whose first parts have one length. */
  lemma {:induction false} LexLessSplit(a: string, x: string, b: string, y: string)
    requires |a| == |b|
    ensures LexLess(a + x, b + y) <==> LexLess(a, b) || (a == b && LexLess(x, y))
    decreases |a|
  {
    if a != [] {
      assert (a + x)[1..] == a[1..] + x && (b + y)[1..] == b[1..] + y;
      LexLessSplit(a[1..], x, b[1..], y);
      if a[0] == b[0] && a[1..] == b[1..] {
        assert a == [a[0]] + a[1..] && b == [b[0]] + b[1..];
      }
    } else {
      assert a + x == x && b + y == y;
    }
  }
}
