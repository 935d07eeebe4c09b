// Text helpers of the renderer: shortening a caption and writing a date as
// DD.MM.YYYY.
module UiUtils {
  import opened Common

  /** `clampText(text, limit)`: texts longer than `limit` keep their first `limit` characters and get "...". */
  function ClampText(text: string, limit: nat): (r: string)
    ensures |text| <= limit ==> r == text
    ensures |text| > limit ==> |r| == limit + 3 && r[..limit] == text[..limit] && r[limit..] == "..."
  {
    if |text| > limit then text[..limit] + "..." else text
  }

  /** The result is never longer than `limit + 3` and always starts with as much of the text as fits. */
  lemma ClampBounds(text: string, limit: nat)
    ensures |ClampText(text, limit)| <= limit + 3
    ensures var kept := if |text| <= limit then |text| else limit;
      ClampText(text, limit)[..kept] == text[..kept]
  {
  }

  /** Shortening an already shortened text changes nothing: the "..." lies past the limit. */
  lemma ClampIdempotent(text: string, limit: nat)
    ensures ClampText(ClampText(text, limit), limit) == ClampText(text, limit)
  {
    if |text| > limit {
      var once := ClampText(text, limit);
      assert once[..limit] == text[..limit];
    }
  }

  /** `('0' + n).slice(-2)`: the last two characters of the number written after a zero. */
  function Pad2(n: nat): (r: string)
    ensures |r| == 2 && forall i :: 0 <= i < |r| ==> IsDigit(r[i])
  {
    var t := "0" + NatToString(n);
    t[|t| - 2..]
  }

  /** The padded text is two digits whose value is `n` modulo 100. */
  lemma Pad2Digits(n: nat)
    ensures DigitsValue(Pad2(n)) == n % 100
  {
    var r := Pad2(n);
    var t := "0" + NatToString(n);
    if n < 10 {
      assert r == "0" + [DigitChar(n)];
      assert r[..1] == "0";
      assert DigitsValue(r[..1]) == 0 by {
        assert r[..1][..0] == [];
      }
    } else {
      var s := NatToString(n);
      var m := n / 10;
      assert s == NatToString(m) + [DigitChar(n % 10)];
      assert r[1] == DigitChar(n % 10);
      var h := NatToString(m);
      assert r[0] == h[|h| - 1];
      assert h[|h| - 1] == DigitChar(m % 10) by {
        if m >= 10 {
          assert h == NatToString(m / 10) + [DigitChar(m % 10)];
        }
      }
      assert r[..1] == [DigitChar(m % 10)];
      assert DigitsValue(r[..1]) == m % 10 by {
        assert r[..1][..0] == [];
      }
      assert DigitsValue(r) == 10 * (m % 10) + n % 10;
      TwoLastDigits(n);
    }
  }

  lemma TwoLastDigits(n: nat)
    ensures 10 * ((n / 10) % 10) + n % 10 == n % 100
  {
    var q := n / 100;
    var m := n % 100;
    assert n == 100 * q + m;
    assert n / 10 == 10 * q + m / 10;
    assert (n / 10) % 10 == m / 10;
  }

  /** `formatDate`: the UTC day, the UTC month counted from 0, and the UTC year. */
  function FormatDate(day: nat, monthIndex: nat, year: nat): (r: string)
    ensures |r| == 6 + |NatToString(year)|
  {
    Pad2(day) + "." + Pad2(monthIndex + 1) + "." + NatToString(year)
  }

  /** Where the three parts sit in `d.m.y` when the first two have two characters. */
  lemma DottedParts(d: string, m: string, y: string)
    requires |d| == 2 && |m| == 2
    ensures var r := d + "." + m + "." + y;
      r[..2] == d && r[2] == '.' && r[3..5] == m && r[5] == '.' && r[6..] == y
  {
  }

  /** A date is written DD.MM.YYYY: two digits of the day, two of the month counted from 1, then the year, which reads back. */
  lemma FormatDateReadsBack(day: nat, monthIndex: nat, year: nat)
    requires 1 <= day <= 31 && monthIndex < 12
    ensures var r := FormatDate(day, monthIndex, year);
      r[..2] == Pad2(day) && r[2] == '.' && r[3..5] == Pad2(monthIndex + 1) && r[5] == '.'
      && ParseInt(r[6..]) == Some(year)
    ensures DigitsValue(Pad2(day)) == day && DigitsValue(Pad2(monthIndex + 1)) == monthIndex + 1
  {
    Pad2Digits(day);
    Pad2Digits(monthIndex + 1);
    BelowHundred(day);
    BelowHundred(monthIndex + 1);
    ParseIntOfNatToString(year);
    DottedReadsBack(Pad2(day), Pad2(monthIndex + 1), NatToString(year));
  }

  lemma BelowHundred(n: nat)
    requires n < 100
    ensures n % 100 == n
  {
  }

  /** `d.m.y` with two-digit `d` and `m`: each part reads back from its place. */
  lemma DottedReadsBack(d: string, m: string, y: string)
    requires |d| == 2 && |m| == 2
    requires forall i :: 0 <= i < 2 ==> IsDigit(d[i]) && IsDigit(m[i])
    ensures var r := d + "." + m + "." + y;
      r[2] == '.' && r[5] == '.' && r[..2] == d && r[3..5] == m && ParseInt(r[6..]) == ParseInt(y)
  {
    DottedParts(d, m, y);
  }
}
