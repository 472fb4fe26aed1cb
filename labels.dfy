/** The `date` labels of the series. A label is the template string
    `${month}/${year}`; the records keep the two numbers it interpolates as a
    `Date`, and `DateText` writes them out the way JavaScript turns an integer
    into text (decimal digits, a leading '-' for a negative number). A parser
    for such text is the partner that shows no information is lost in it. */
module Labels {
  import opened Wrappers

  function DigitChar(d: int): (c: char)
    requires 0 <= d < 10
    ensures '0' <= c <= '9'
  {
    ('0' as int + d) as char
  }

  function DigitValue(c: char): (d: nat)
    requires '0' <= c <= '9'
    ensures d < 10
  {
    (c as int - '0' as int)
  }

  /** Decimal text of a natural number, without leading zeros. */
  function NatToString(n: nat): string
    decreases n
  {
    if n < 10 then [DigitChar(n)] else NatToString(n / 10) + [DigitChar(n % 10)]
  }

  /** How a JavaScript template literal renders an integer. */
  function IntToString(i: int): string
  {
    if i < 0 then "-" + NatToString(-i) else NatToString(i)
  }

  /** The month and year a label is made of. */
  datatype Date = Date(month: int, year: int)

  /** `${month}/${year}` */
  function DateText(d: Date): string
  {
    IntToString(d.month) + "/" + IntToString(d.year)
  }

  predicate AllDigits(s: string)
  {
    forall i :: 0 <= i < |s| ==> '0' <= s[i] <= '9'
  }

  function DigitsValue(s: string): nat
    requires AllDigits(s)
  {
    if |s| == 0 then 0 else DigitsValue(s[..|s| - 1]) * 10 + DigitValue(s[|s| - 1])
  }

  /** Reads back the text of an integer; `None` for anything else. */
  function ParseInt(s: string): Option<int>
  {
    if |s| > 1 && s[0] == '-' && AllDigits(s[1..]) then Some(-(DigitsValue(s[1..]) as int))
    else if |s| > 0 && AllDigits(s) then Some(DigitsValue(s))
    else None
  }

  /** The position of the first '/' in `s`, or `|s|` when there is none. */
  function SlashIndex(s: string): (k: nat)
    ensures k <= |s|
    ensures forall i :: 0 <= i < k ==> s[i] != '/'
    ensures k < |s| ==> s[k] == '/'
  {
    if |s| == 0 then 0
    else if s[0] == '/' then 0
    else 1 + SlashIndex(s[1..])
  }

  /** Reads a label back into its month and year. */
  function ParseDate(s: string): Option<Date>
  {
    var k := SlashIndex(s);
    if k == |s| then None
    else
      match (ParseInt(s[..k]), ParseInt(s[k + 1..]))
      case (Some(month), Some(year)) => Some(Date(month, year))
      case _ => None
  }

  lemma {:induction false} NatToStringDigits(n: nat)
    ensures |NatToString(n)| > 0 && AllDigits(NatToString(n))
    decreases n
  {
    if n >= 10 {
      NatToStringDigits(n / 10);
    }
  }

  lemma IntToStringShape(i: int)
    ensures |IntToString(i)| > 0 && '/' !in IntToString(i)
  {
    NatToStringDigits(if i < 0 then -i else i);
  }

  lemma {:induction false} NatToStringRoundTrip(n: nat)
    ensures AllDigits(NatToString(n)) && DigitsValue(NatToString(n)) == n
    decreases n
  {
    var s := NatToString(n);
    NatToStringDigits(n);
    if n >= 10 {
      NatToStringRoundTrip(n / 10);
      assert s[..|s| - 1] == NatToString(n / 10);
    }
  }

  lemma IntToStringRoundTrip(i: int)
    ensures ParseInt(IntToString(i)) == Some(i)
  {
    if i < 0 {
      NegativeRoundTrip(i);
    } else {
      NonNegativeRoundTrip(i);
    }
  }

  lemma NegativeRoundTrip(i: int)
    requires i < 0
    ensures ParseInt(IntToString(i)) == Some(i)
  {
    var digits := NatToString(-i);
    var s := "-" + digits;
    NatToStringRoundTrip(-i);
    assert IntToString(i) == s;
    assert s[0] == '-';
    assert s[1..] == digits;
    assert ParseInt(s) == Some(-(DigitsValue(digits) as int));
  }

  lemma NonNegativeRoundTrip(i: int)
    requires i >= 0
    ensures ParseInt(IntToString(i)) == Some(i)
  {
    var s := NatToString(i);
    NatToStringDigits(i);
    NatToStringRoundTrip(i);
    assert IntToString(i) == s;
    assert s[0] != '-';
    assert ParseInt(s) == Some(DigitsValue(s));
  }

  /** Every label the engine writes reads back as the month and year it was
      made from. */
  lemma DateTextRoundTrip(d: Date)
    ensures ParseDate(DateText(d)) == Some(d)
  {
    var a, b := IntToString(d.month), IntToString(d.year);
    var s := DateText(d);
    IntToStringShape(d.month);
    IntToStringShape(d.year);
    assert s == a + "/" + b;
    assert s[|a|] == '/';
    assert forall i :: 0 <= i < |a| ==> s[i] == a[i];
    assert SlashIndex(s) == |a|;
    assert s[..|a|] == a;
    assert s[|a| + 1..] == b;
    IntToStringRoundTrip(d.month);
    IntToStringRoundTrip(d.year);
  }

  /** Corollary: different dates never share a label. */
  lemma DateTextInjective(d1: Date, d2: Date)
    requires DateText(d1) == DateText(d2)
    ensures d1 == d2
  {
    DateTextRoundTrip(d1);
    DateTextRoundTrip(d2);
  }
}
