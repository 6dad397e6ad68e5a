/** The surge cache stores a multiplier as text (pricing.py:53-59): str on the way in,
    Decimal(...) on the way out. Printing then parsing gives the same decimal back. */
module SurgeText {
  import opened Models
  import opened Surge

  function DigitChar(d: nat): char
    requires d < 10
  {
    '0' + d as char
  }

  predicate IsDigit(c: char) { '0' <= c <= '9' }

  function DigitValue(c: char): nat
    requires IsDigit(c)
  {
    c as nat - '0' as nat
  }

  /** n in decimal, most significant digit first; zero is the empty string. */
  function Digits(n: nat): (s: string)
    ensures forall i :: 0 <= i < |s| ==> IsDigit(s[i])
  {
    if n == 0 then "" else Digits(n / 10) + [DigitChar(n % 10)]
  }

  /** The digits of n, with zeros in front up to the given width. */
  function Padded(n: nat, width: nat): (s: string)
    ensures |s| >= width
    ensures forall i :: 0 <= i < |s| ==> IsDigit(s[i])
  {
    var s := Digits(n);
    if |s| >= width then s else seq(width - |s|, i => '0') + s
  }

  function NumberOf(s: string): Option<nat> {
    if s == "" then Some(0)
    else
      var init, last := NumberOf(s[..|s| - 1]), s[|s| - 1];
      if init.Some? && IsDigit(last) then Some(10 * init.value + DigitValue(last)) else None
  }

  /** str(d) for the exponents the code produces: a digit, a point, the places. */
  function Print(d: Decimal): string {
    var s := Padded(d.coeff, d.places + 1);
    if d.places == 0 then s else s[..|s| - d.places] + "." + s[|s| - d.places..]
  }

  /** Where the first point at or after k is, or the length of s. */
  function PointFrom(s: string, k: nat): (i: nat)
    requires k <= |s|
    ensures k <= i <= |s|
    decreases |s| - k
  {
    if k == |s| || s[k] == '.' then k else PointFrom(s, k + 1)
  }

  /** Decimal(s) for plain decimal text. */
  function Parse(s: string): Option<Decimal> {
    var i := PointFrom(s, 0);
    var (digits, places) := if i == |s| then (s, 0) else (s[..i] + s[i + 1..], |s| - i - 1);
    var coeff := NumberOf(digits);
    if digits != "" && coeff.Some? then Some(Decimal(coeff.value, places)) else None
  }

  lemma {:induction false} NumberOfDigits(n: nat)
    ensures NumberOf(Digits(n)) == Some(n)
  {
    if n > 0 {
      NumberOfDigits(n / 10);
      assert Digits(n)[..|Digits(n)| - 1] == Digits(n / 10);
    }
  }

  lemma {:induction false} LeadingZeros(k: nat, s: string)
    ensures NumberOf(seq(k, i => '0') + s) == NumberOf(s)
  {
    var z := seq(k, i => '0');
    if s != "" {
      LeadingZeros(k, s[..|s| - 1]);
      assert (z + s)[..|z + s| - 1] == z + s[..|s| - 1];
    } else if k > 0 {
      LeadingZeros(k - 1, "");
      assert z + s == z;
      assert z[..k - 1] == seq(k - 1, i => '0') == seq(k - 1, i => '0') + "";
    } else {
      assert z + s == s;
    }
  }

  lemma NumberOfPadded(n: nat, width: nat)
    ensures NumberOf(Padded(n, width)) == Some(n)
  {
    NumberOfDigits(n);
    if |Digits(n)| < width {
      LeadingZeros(width - |Digits(n)|, Digits(n));
    }
  }

  lemma {:induction false} PointFound(s: string, k: nat, cut: nat)
    requires k <= cut <= |s| && (cut < |s| ==> s[cut] == '.')
    requires forall i :: k <= i < cut ==> s[i] != '.'
    ensures PointFrom(s, k) == cut
    decreases cut - k
  {
    if k < cut {
      PointFound(s, k + 1, cut);
    }
  }

  /** Digits with a point put among them still hold the same digits. */
  lemma Pointed(digits: string, cut: nat, text: string)
    requires cut < |digits| && text == digits[..cut] + "." + digits[cut..]
    requires forall i :: 0 <= i < |digits| ==> IsDigit(digits[i])
    ensures PointFrom(text, 0) == cut && text[..cut] + text[cut + 1..] == digits
  {
    forall k | 0 <= k < cut
      ensures text[k] != '.'
    {
      assert text[k] == digits[k] && IsDigit(digits[k]);
    }
    PointFound(text, 0, cut);
    assert text[..cut] == digits[..cut] && text[cut + 1..] == digits[cut..];
    assert digits[..cut] + digits[cut..] == digits;
  }

  /** Round trip: the cache gives back the very decimal that was stored. */
  lemma ParsePrint(d: Decimal)
    ensures Parse(Print(d)) == Some(d)
  {
    var s := Padded(d.coeff, d.places + 1);
    NumberOfPadded(d.coeff, d.places + 1);
    if d.places > 0 {
      Pointed(s, |s| - d.places, Print(d));
    } else {
      forall k | 0 <= k < |s|
        ensures s[k] != '.'
      {
        assert IsDigit(s[k]);
      }
      PointFound(s, 0, |s|);
    }
  }

  /** What the cache holds as text: "1.00" to "9.99" for two places, and "3.0" for the constant. */
  lemma PrintedMultiplier(c: nat)
    requires 100 <= c < 1000
    ensures Print(Decimal(c, 2)) == [DigitChar(c / 100)] + "." + [DigitChar(c / 10 % 10)] + [DigitChar(c % 10)]
    ensures Print(Decimal(30, 1)) == "3.0"
  {
    assert c / 10 / 10 == c / 100;
    assert Digits(c / 100) == [DigitChar(c / 100)] by {
      assert Digits(c / 100 / 10) == "";
    }
    assert Digits(c / 10) == Digits(c / 100) + [DigitChar(c / 10 % 10)];
    assert Digits(c) == Digits(c / 10) + [DigitChar(c % 10)];
    assert Digits(3) == Digits(0) + [DigitChar(3)];
    assert Digits(30) == "30";
  }
}
