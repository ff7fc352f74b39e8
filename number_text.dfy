/**
 * The text form of non-negative integers, as JavaScript's
 * `Number.prototype.toString(radix)` writes them: lower-case digits
 * `0-9a-z`, most significant first, no sign and no leading zeros.
 * Page numbers become hexadecimal (radix 16) in image URLs and file
 * names, and decimal (radix 10) in status messages.
 */
module NumberText {

  /** The digit character for a digit value below 36. */
  function DigitChar(d: nat): (c: char)
    requires d < 36
  {
    if d < 10 then ('0' as int + d) as char else ('a' as int + d - 10) as char
  }

  /** The value of a digit character (0 for a character that is no digit). */
  function DigitValue(c: char): nat
  {
    if '0' <= c <= '9' then c as int - '0' as int
    else if 'a' <= c <= 'z' then c as int - 'a' as int + 10
    else 0
  }

  /** Whether `c` is one of the first `radix` digit characters. */
  predicate IsDigitOf(c: char, radix: nat)
  {
    ('0' <= c <= '9' || 'a' <= c <= 'z') && DigitValue(c) < radix
  }

  /** The reference reading of a digit string: its value in base `radix`. */
  function ValueOf(s: string, radix: nat): nat
  {
    if s == [] then 0 else ValueOf(s[..|s| - 1], radix) * radix + DigitValue(s[|s| - 1])
  }

  /** `n.toString(radix)` for a non-negative integer `n`. */
  function ToRadix(n: nat, radix: nat): (r: string)
    requires 2 <= radix <= 36
    ensures |r| >= 1
    ensures forall k :: 0 <= k < |r| ==> IsDigitOf(r[k], radix)
    ensures n == 0 <==> r == "0"
    ensures n > 0 ==> r[0] != '0'
    decreases n
  {
    if n < radix then [DigitChar(n)]
    else
      DivisionStep(n, radix);
      ToRadix(n / radix, radix) + [DigitChar(n % radix)]
  }

  /** One step of the positional expansion: `n` splits into a smaller quotient and a digit. */
  lemma DivisionStep(n: nat, radix: nat)
    requires 2 <= radix <= n
    ensures 0 < n / radix < n && n % radix < radix
    ensures n == (n / radix) * radix + n % radix
  {
  }

  /** `n.toString(16)`: lower-case hexadecimal without padding. */
  function ToHex(n: nat): (r: string)
    ensures |r| >= 1 && forall k :: 0 <= k < |r| ==> IsDigitOf(r[k], 16)
  {
    ToRadix(n, 16)
  }

  /** `String(n)`, the decimal text used in template literals. */
  function ToDecimal(n: nat): (r: string)
    ensures |r| >= 1 && forall k :: 0 <= k < |r| ==> IsDigitOf(r[k], 10)
  {
    ToRadix(n, 10)
  }

  lemma DigitRoundTrip(d: nat)
    requires d < 36
    ensures DigitValue(DigitChar(d)) == d
  {
  }

  /** Reading back the text of `n` gives `n`: the text form loses nothing. */
  lemma {:induction false} ValueOfToRadix(n: nat, radix: nat)
    requires 2 <= radix <= 36
    ensures ValueOf(ToRadix(n, radix), radix) == n
    decreases n
  {
    var r := ToRadix(n, radix);
    if n < radix {
      DigitRoundTrip(n);
      assert r[..|r| - 1] == [];
    } else {
      DivisionStep(n, radix);
      ValueOfToRadix(n / radix, radix);
      DigitRoundTrip(n % radix);
      assert r[..|r| - 1] == ToRadix(n / radix, radix);
    }
  }

  /** Distinct numbers have distinct texts in every radix. */
  lemma ToRadixInjective(m: nat, n: nat, radix: nat)
    requires 2 <= radix <= 36
    ensures ToRadix(m, radix) == ToRadix(n, radix) <==> m == n
  {
    if ToRadix(m, radix) == ToRadix(n, radix) {
      ValueOfToRadix(m, radix);
      ValueOfToRadix(n, radix);
    }
  }

  /** Examples of the hexadecimal page index: 10 is "a", 255 is "ff", 16 is "10". */
  lemma HexExamples()
    ensures ToHex(1) == "1" && ToHex(10) == "a" && ToHex(255) == "ff" && ToHex(16) == "10"
  {
    assert ToRadix(15, 16) == "f";
    assert ToRadix(1, 16) == "1";
  }
}
