/** String helpers over `seq<char>` standing in for the parts of juce::String the
    core uses: substring search (`contains`, `indexOf`, `substring`), decimal
    printing of whole numbers and of one-decimal values (`String(double, 1)`), and
    the leading-number parsers `getIntValue` / `getFloatValue` restricted to
    unsigned decimal text. */
module Text {

  predicate IsDigit(c: char) { '0' <= c <= '9' }

  function DigitChar(d: nat): (c: char)
    requires d < 10
    ensures IsDigit(c)
  {
    ['0', '1', '2', '3', '4', '5', '6', '7', '8', '9'][d]
  }

  function DigitValue(c: char): (d: nat)
    requires IsDigit(c)
    ensures d < 10
  {
    (c as int - '0' as int) as nat
  }

  lemma DigitRoundTrip(d: nat)
    requires d < 10
    ensures DigitValue(DigitChar(d)) == d
  {
  }

  /** `t` occurs in `s` starting at index `i`. */
  predicate OccursAt(s: string, t: string, i: nat)
  {
    i + |t| <= |s| && s[i..i + |t|] == t
  }

  /** juce::String::contains */
  predicate Contains(s: string, t: string)
  {
    exists i: nat | i <= |s| :: OccursAt(s, t, i)
  }

  predicate EndsWith(s: string, t: string)
  {
    |t| <= |s| && s[|s| - |t|..] == t
  }

  /** juce::String::indexOf for a one-character needle: the first index of `c`,
      or -1 when there is none. */
  function IndexOf(s: string, c: char): (r: int)
    ensures -1 <= r < |s|
    ensures r == -1 <==> c !in s
    ensures r >= 0 ==> s[r] == c && c !in s[..r]
  {
    if |s| == 0 then -1
    else if s[0] == c then 0
    else
      var k := IndexOf(s[1..], c);
      if k < 0 then -1
      else
        assert s[..k + 1] == [s[0]] + s[1..][..k];
        k + 1
  }

  /** Decimal digits of a natural number, most significant first, no leading zeros. */
  function NatToString(n: nat): (s: string)
    decreases n
  {
    if n < 10 then [DigitChar(n)] else NatToString(n / 10) + [DigitChar(n % 10)]
  }

  predicate AllDigits(s: string)
  {
    forall i :: 0 <= i < |s| ==> IsDigit(s[i])
  }

  lemma {:induction false} NatToStringDigits(n: nat)
    ensures |NatToString(n)| >= 1
    ensures AllDigits(NatToString(n))
    decreases n
  {
    if n >= 10 { NatToStringDigits(n / 10); }
  }

  /** Value of a string of decimal digits, most significant first. */
  function DigitsValue(s: string): nat
    requires AllDigits(s)
    decreases |s|
  {
    if |s| == 0 then 0 else 10 * DigitsValue(s[..|s| - 1]) + DigitValue(s[|s| - 1])
  }

  lemma {:induction false} NatToStringValue(n: nat)
    ensures AllDigits(NatToString(n)) && DigitsValue(NatToString(n)) == n
    decreases n
  {
    NatToStringDigits(n);
    var s := NatToString(n);
    if n < 10 {
      DigitRoundTrip(n);
    } else {
      NatToStringValue(n / 10);
      assert s[..|s| - 1] == NatToString(n / 10);
      DigitRoundTrip(n % 10);
    }
  }

  /** The longest prefix of `s` made of decimal digits. */
  function LeadingDigits(s: string): (d: string)
    ensures |d| <= |s| && d == s[..|d|]
    ensures AllDigits(d)
    ensures |d| < |s| ==> !IsDigit(s[|d|])
    decreases |s|
  {
    if |s| == 0 || !IsDigit(s[0]) then []
    else
      var rest := LeadingDigits(s[1..]);
      assert s[1..][..|rest|] == s[1..|rest| + 1];
      [s[0]] + rest
  }

  lemma {:induction false} LeadingDigitsOfDigitsThen(d: string, t: string)
    requires AllDigits(d)
    requires |t| > 0 && !IsDigit(t[0])
    ensures LeadingDigits(d + t) == d
    decreases |d|
  {
    if |d| > 0 {
      assert (d + t)[1..] == d[1..] + t;
      LeadingDigitsOfDigitsThen(d[1..], t);
    } else {
      assert d + t == t;
    }
  }

  /** juce::String::getIntValue on unsigned decimal text: the value of the
      leading run of digits (0 when there is none). */
  function LeadingIntValue(s: string): nat
  {
    DigitsValue(LeadingDigits(s))
  }

  /** juce::String(value, 1) for a non-negative value given in tenths:
      the integer part, a '.', and exactly one decimal digit. */
  function OneDecimal(tenths: nat): (s: string)
  {
    NatToString(tenths / 10) + "." + [DigitChar(tenths % 10)]
  }

  /** juce::String::getFloatValue on text of the form digits [ '.' digits ]:
      the integer part plus the fraction read from the digits after the point. */
  function DecimalValue(s: string): real
  {
    var ip := LeadingDigits(s);
    var rest := s[|ip|..];
    var whole := DigitsValue(ip) as real;
    if |rest| > 0 && rest[0] == '.' then
      var fd := LeadingDigits(rest[1..]);
      whole + DigitsValue(fd) as real / Pow10(|fd|) as real
    else whole
  }

  function Pow10(k: nat): (p: nat)
    ensures p >= 1
  {
    if k == 0 then 1 else 10 * Pow10(k - 1)
  }

  /** The printed integer part of a one-decimal value contains no '.'. */
  lemma OneDecimalShape(tenths: nat)
    ensures var s := OneDecimal(tenths);
            var ip := NatToString(tenths / 10);
            |s| == |ip| + 2 && s[..|ip|] == ip && s[|ip|] == '.' && s[|ip| + 1] == DigitChar(tenths % 10)
            && '.' !in ip
  {
    var ip := NatToString(tenths / 10);
    NatToStringDigits(tenths / 10);
    forall i | 0 <= i < |ip| ensures ip[i] != '.' {
      assert IsDigit(ip[i]);
    }
  }

  /** Parsing the integer part of a printed one-decimal value (getIntValue)
      gives back its whole part. */
  lemma LeadingIntOfOneDecimal(tenths: nat)
    ensures LeadingIntValue(OneDecimal(tenths)) == tenths / 10
  {
    var ip := NatToString(tenths / 10);
    NatToStringDigits(tenths / 10);
    LeadingDigitsOfDigitsThen(ip, "." + [DigitChar(tenths % 10)]);
    assert OneDecimal(tenths) == ip + ("." + [DigitChar(tenths % 10)]);
    NatToStringValue(tenths / 10);
  }

  /** Round trip: getFloatValue of String(x, 1) is x, for x a non-negative number of tenths. */
  lemma DecimalValueOfOneDecimal(tenths: nat)
    ensures DecimalValue(OneDecimal(tenths)) == tenths as real / 10.0
  {
    var s := OneDecimal(tenths);
    var ip := NatToString(tenths / 10);
    var d := DigitChar(tenths % 10);
    NatToStringDigits(tenths / 10);
    NatToStringValue(tenths / 10);
    LeadingDigitsOfDigitsThen(ip, "." + [d]);
    assert s == ip + ("." + [d]);
    assert LeadingDigits(s) == ip;
    assert s[|ip|..] == "." + [d];
    var fd := LeadingDigits([d]);
    assert ("." + [d])[1..] == [d];
    assert [d][1..] == [];
    assert fd == [d];
    assert [d][..0] == [];
    DigitRoundTrip(tenths % 10);
    assert DigitsValue(fd) == tenths % 10;
    assert Pow10(1) == 10;
    assert tenths == 10 * (tenths / 10) + tenths % 10;
  }

  /** A printed one-decimal value contains ".0" exactly when its decimal digit is 0. */
  lemma ContainsPointZeroOfOneDecimal(tenths: nat)
    ensures Contains(OneDecimal(tenths), ".0") <==> tenths % 10 == 0
  {
    var s := OneDecimal(tenths);
    var ip := NatToString(tenths / 10);
    OneDecimalShape(tenths);
    if tenths % 10 == 0 {
      assert OccursAt(s, ".0", |ip|);
    }
    if Contains(s, ".0") {
      var i: nat :| i <= |s| && OccursAt(s, ".0", i);
      assert s[i] == s[i..i + 2][0] == '.';
      forall j | 0 <= j < |ip| ensures s[j] != '.' {
        assert s[j] == s[..|ip|][j] == ip[j];
      }
      assert i == |ip|;
      assert s[|ip| + 1] == '0';
      assert DigitChar(tenths % 10) == '0';
      DigitRoundTrip(tenths % 10);
    }
  }
}
