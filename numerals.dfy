/**
 * The number-to-text conversions the scripts rely on: `n.toString()` (base
 * 10), `n.toString(16)` (lower-case hexadecimal), `parseInt` of a run of
 * decimal digits, and `String.prototype.padStart`. Only natural numbers
 * occur in the scripts' uses of them.
 */
module Numerals {

  /** The digit for `d` in JavaScript's output: 0-9, then lower-case a-f. */
  function DigitChar(d: nat): (c: char)
    requires d < 16
    ensures d < 10 ==> '0' <= c <= '9' && c as int - '0' as int == d
    ensures 10 <= d ==> 'a' <= c <= 'f' && c as int - 'a' as int + 10 == d
  {
    "0123456789abcdef"[d]
  }

  predicate IsDecimalDigit(c: char) {
    '0' <= c <= '9'
  }

  /** `c` is a digit of the given base, as JavaScript writes it (lower case). */
  predicate IsDigitOf(c: char, base: nat) {
    (IsDecimalDigit(c) && (c as int - '0' as int) < base) ||
    ('a' <= c <= 'f' && (c as int - 'a' as int + 10) < base)
  }

  /** The value of a digit character; 0 for anything else. */
  function DigitValue(c: char): (v: nat)
    ensures v < 16
  {
    if IsDecimalDigit(c) then c as int - '0' as int
    else if 'a' <= c <= 'f' then c as int - 'a' as int + 10
    else 0
  }

  lemma DigitValueOfDigitChar(d: nat)
    requires d < 16
    ensures DigitValue(DigitChar(d)) == d
  {
  }

  /** The facts about dividing by the base that the digit recursion needs. */
  lemma DivideByBase(n: nat, base: nat)
    requires 2 <= base && n >= base
    ensures 1 <= n / base < n
    ensures n % base < base
    ensures n == n / base * base + n % base
  {
    var q, m := n / base, n % base;
    assert n == q * base + m && 0 <= m < base;
    assert q != 0;
    var extra: nat := base - 2;
    assert q * base == q * 2 + q * extra;
  }

  /** `n.toString(base)` for a natural number: no leading zero, at least one digit. */
  function ToBase(n: nat, base: nat): (r: string)
    requires 2 <= base <= 16
    ensures |r| >= 1
    ensures forall i :: 0 <= i < |r| ==> IsDigitOf(r[i], base)
    ensures |r| > 1 ==> r[0] != '0'
    ensures n < base <==> |r| == 1
    decreases n
  {
    if n < base then [DigitChar(n)]
    else
      DivideByBase(n, base);
      ToBase(n / base, base) + [DigitChar(n % base)]
  }

  /** The value of a string of digits read in the given base (most significant first). */
  function FromBase(s: string, base: nat): nat
    decreases |s|
  {
    if s == [] then 0 else FromBase(s[..|s| - 1], base) * base + DigitValue(s[|s| - 1])
  }

  /** Reading back what `toString(base)` wrote gives the number. */
  lemma {:induction false} FromToBase(n: nat, base: nat)
    requires 2 <= base <= 16
    ensures FromBase(ToBase(n, base), base) == n
    decreases n
  {
    var r := ToBase(n, base);
    if n < base {
      DigitValueOfDigitChar(n);
    } else {
      DivideByBase(n, base);
      FromToBase(n / base, base);
      assert r[..|r| - 1] == ToBase(n / base, base);
      DigitValueOfDigitChar(n % base);
    }
  }

  /** Decimal `toString`. */
  function Decimal(n: nat): string
  {
    ToBase(n, 10)
  }

  /** Lower-case hexadecimal `toString(16)`. */
  function Hex(n: nat): string
  {
    ToBase(n, 16)
  }

  function Repeat(c: char, k: nat): (r: string)
    ensures |r| == k && forall i :: 0 <= i < k ==> r[i] == c
  {
    seq(k, _ => c)
  }

  /** `s.padStart(width, fill)` with a one-character fill. */
  function PadStart(s: string, width: nat, fill: char): (r: string)
    ensures |s| >= width ==> r == s
    ensures |s| < width ==> |r| == width
    ensures |r| >= width && |r| >= |s|
    ensures r[|r| - |s|..] == s
    ensures forall i :: 0 <= i < |r| - |s| ==> r[i] == fill
  {
    if |s| >= width then s else Repeat(fill, width - |s|) + s
  }

  /** Leading zeros do not change the value of a digit string. */
  lemma {:induction false} FromBaseZeros(k: nat, base: nat)
    ensures FromBase(Repeat('0', k), base) == 0
    decreases k
  {
    if k > 0 {
      assert Repeat('0', k)[..k - 1] == Repeat('0', k - 1);
      FromBaseZeros(k - 1, base);
    }
  }

  lemma {:induction false} FromBaseLeadingZeros(k: nat, s: string, base: nat)
    ensures FromBase(Repeat('0', k) + s, base) == FromBase(s, base)
    decreases |s|
  {
    var z := Repeat('0', k);
    if s == [] {
      assert z + s == z;
      FromBaseZeros(k, base);
    } else {
      assert (z + s)[..|z + s| - 1] == z + s[..|s| - 1];
      FromBaseLeadingZeros(k, s[..|s| - 1], base);
    }
  }

  /** Padding a number's digits with zeros keeps its value: `parseInt(n.toString(b).padStart(w, '0'), b) == n`. */
  lemma PaddedRoundTrip(n: nat, base: nat, width: nat)
    requires 2 <= base <= 16
    ensures FromBase(PadStart(ToBase(n, base), width, '0'), base) == n
  {
    var s := ToBase(n, base);
    FromToBase(n, base);
    if |s| < width {
      FromBaseLeadingZeros(width - |s|, s, base);
    }
  }
}
