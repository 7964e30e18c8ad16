/** The two string operations the scraper relies on: JavaScript's `String.prototype.includes`
    and the decimal rendering of an integer inside a template literal. */
module Text {

  /** `needle` occurs in `text` at offset `i`. */
  predicate OccursAt(text: string, needle: string, i: int)
  {
    0 <= i && i + |needle| <= |text| && text[i..i + |needle|] == needle
  }

  /** `text.includes(needle)`: a scan that tries every offset from the left.
      The empty needle is included in every text, as in JavaScript. */
  predicate Includes(text: string, needle: string)
    decreases |text|
  {
    (|needle| <= |text| && text[..|needle|] == needle)
    || (|text| > 0 && Includes(text[1..], needle))
  }

  /** The scan agrees with the declarative definition of a substring, in both directions. */
  lemma {:induction false} IncludesIffOccurs(text: string, needle: string)
    ensures Includes(text, needle) <==> exists i :: OccursAt(text, needle, i)
    decreases |text|
  {
    if |text| == 0 {
      if Includes(text, needle) {
        assert OccursAt(text, needle, 0);
      }
      if exists i :: OccursAt(text, needle, i) {
        var i :| OccursAt(text, needle, i);
        assert i == 0 && |needle| == 0;
        assert text[..|needle|] == needle;
      }
    } else {
      IncludesIffOccurs(text[1..], needle);
      if Includes(text, needle) {
        if |needle| <= |text| && text[..|needle|] == needle {
          assert OccursAt(text, needle, 0);
        } else {
          var i :| OccursAt(text[1..], needle, i);
          assert text[1..][i..i + |needle|] == text[i + 1..i + 1 + |needle|];
          assert OccursAt(text, needle, i + 1);
        }
      }
      if exists i :: OccursAt(text, needle, i) {
        var i :| OccursAt(text, needle, i);
        if i == 0 {
          assert text[..|needle|] == needle;
        } else {
          assert text[1..][i - 1..i - 1 + |needle|] == text[i..i + |needle|];
          assert OccursAt(text[1..], needle, i - 1);
        }
      }
    }
  }

  /** A needle longer than the text is never included in it. */
  lemma {:induction false} LongerNeedleNotIncluded(text: string, needle: string)
    requires |needle| > |text|
    ensures !Includes(text, needle)
    decreases |text|
  {
    if |text| > 0 {
      LongerNeedleNotIncluded(text[1..], needle);
    }
  }

  /** Every text includes itself. */
  lemma IncludesItself(text: string)
    ensures Includes(text, text)
  {
    assert text[..|text|] == text;
  }

  predicate IsDigit(c: char)
  {
    '0' <= c <= '9'
  }

  function DigitChar(d: int): (c: char)
    requires 0 <= d < 10
    ensures IsDigit(c)
  {
    ('0' as int + d) as char
  }

  function DigitValue(c: char): int
  {
    c as int - '0' as int
  }

  /** The decimal numeral of `n`, most significant digit first, without leading zeros. */
  function NatToDecimal(n: nat): (s: string)
    ensures |s| >= 1
    ensures forall k :: 0 <= k < |s| ==> IsDigit(s[k])
    ensures s[0] == '0' <==> n == 0
  {
    if n < 10 then [DigitChar(n)] else NatToDecimal(n / 10) + [DigitChar(n % 10)]
  }

  /** How an integral number is written by `${n}`: a minus sign for negatives, then the digits
      of its magnitude. */
  function IntToDecimal(n: int): (s: string)
    ensures |s| >= 1 && (s[0] == '-' <==> n < 0)
  {
    if n < 0 then "-" + NatToDecimal(-n) else NatToDecimal(n)
  }

  /** The value of a string of decimal digits, read most significant digit first. */
  function DecimalValue(s: string): int
    decreases |s|
  {
    if s == [] then 0 else 10 * DecimalValue(s[..|s| - 1]) + DigitValue(s[|s| - 1])
  }

  /** Reading back a rendered natural number gives the number. */
  lemma {:induction false} DecimalRoundTrip(n: nat)
    ensures DecimalValue(NatToDecimal(n)) == n
  {
    if n >= 10 {
      var s := NatToDecimal(n);
      assert s[..|s| - 1] == NatToDecimal(n / 10);
      DecimalRoundTrip(n / 10);
    }
  }

  /** Distinct natural numbers are rendered as distinct strings. */
  lemma NatToDecimalInjective(m: nat, n: nat)
    requires NatToDecimal(m) == NatToDecimal(n)
    ensures m == n
  {
    DecimalRoundTrip(m);
    DecimalRoundTrip(n);
  }

  /** Distinct integers are rendered as distinct strings. */
  lemma IntToDecimalInjective(m: int, n: int)
    requires IntToDecimal(m) == IntToDecimal(n)
    ensures m == n
  {
    if m < 0 && n < 0 {
      var sm, sn := IntToDecimal(m), IntToDecimal(n);
      assert NatToDecimal(-m) == sm[1..] == sn[1..] == NatToDecimal(-n);
      NatToDecimalInjective(-m, -n);
    } else if m >= 0 && n >= 0 {
      NatToDecimalInjective(m, n);
    }
  }
}
