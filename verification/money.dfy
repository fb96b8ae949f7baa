/** Prices in the shop's currency (store-mm.php:32-49). Amounts are held as
    whole thousandths, since the plugin always shows three decimals. */
module Money {
  import opened Wrappers
  import opened Text

  const CurrencySymbol: string := "TND"
  const PriceDecimals: nat := 3
  /** One currency unit in thousandths. */
  const Unit: nat := 1000

  function DigitChar(d: nat): (c: char)
    requires d < 10
    ensures IsDigit(c) && c as int - '0' as int == d
  {
    "0123456789"[d]
  }

  function DigitValue(c: char): (d: nat)
    requires IsDigit(c)
    ensures d < 10
  {
    c as int - '0' as int
  }

  /** Decimal digits of `n`, without leading zeros. */
  function NatDigits(n: nat): (s: string)
    ensures |s| >= 1 && AllDigits(s)
    decreases n
  {
    if n < 10 then [DigitChar(n)] else NatDigits(n / 10) + [DigitChar(n % 10)]
  }

  /** The number a string of decimal digits denotes. */
  function ParseDigits(s: string): nat
    requires AllDigits(s)
  {
    if s == [] then 0 else ParseDigits(s[..|s| - 1]) * 10 + DigitValue(s[|s| - 1])
  }

  lemma {:induction false} ParseNatDigits(n: nat)
    ensures ParseDigits(NatDigits(n)) == n
    decreases n
  {
    if n >= 10 {
      var s := NatDigits(n);
      assert s[..|s| - 1] == NatDigits(n / 10);
      ParseNatDigits(n / 10);
    }
  }

  /** The three fractional digits of a remainder below one unit. */
  function Fraction(f: nat): (s: string)
    requires f < Unit
    ensures |s| == PriceDecimals && AllDigits(s)
  {
    [DigitChar(f / 100), DigitChar(f / 10 % 10), DigitChar(f % 10)]
  }

  /** `number_format($price, 3, '.', '')`: a sign, whole units, '.' and three
      digits, with no thousands separator. */
  function FormatAmount(m: int): string {
    var a := if m < 0 then -m else m;
    (if m < 0 then "-" else "") + NatDigits(a / Unit) + "." + Fraction(a % Unit)
  }

  /** `store_mm_format_price`: the currency symbol, a space, then the amount. */
  function FormatPrice(m: int): string {
    CurrencySymbol + " " + FormatAmount(m)
  }

  /** Reads an unsigned amount written as digits, '.', and three digits. */
  function ParseUnsigned(s: string): Option<nat> {
    if |s| >= PriceDecimals + 2 && s[|s| - PriceDecimals - 1] == '.'
       && AllDigits(s[..|s| - PriceDecimals - 1]) && AllDigits(s[|s| - PriceDecimals..])
    then Some(ParseDigits(s[..|s| - PriceDecimals - 1]) * Unit + ParseDigits(s[|s| - PriceDecimals..]))
    else None
  }

  /** Reads back what `FormatAmount` writes. */
  function ParseAmount(s: string): Option<int> {
    if |s| > 0 && s[0] == '-' then
      match ParseUnsigned(s[1..])
      case Some(v) => Some(-(v as int))
      case None => None
    else
      match ParseUnsigned(s)
      case Some(v) => Some(v)
      case None => None
  }

  /** Reads back what `FormatPrice` writes. */
  function ParsePrice(s: string): Option<int> {
    var prefix := CurrencySymbol + " ";
    if |s| >= |prefix| && s[..|prefix|] == prefix then ParseAmount(s[|prefix|..]) else None
  }

  lemma {:induction false} ParseFraction(f: nat)
    requires f < Unit
    ensures ParseDigits(Fraction(f)) == f
  {
    var s := Fraction(f);
    assert s[..2][..1] == [DigitChar(f / 100)];
    assert s[..2] == [DigitChar(f / 100), DigitChar(f / 10 % 10)];
    assert ParseDigits([DigitChar(f / 100)]) == f / 100 by {
      assert [DigitChar(f / 100)][..0] == [];
    }
  }

  lemma {:induction false} ParseUnsignedFormat(a: nat)
    ensures ParseUnsigned(NatDigits(a / Unit) + "." + Fraction(a % Unit)) == Some(a)
  {
    var w := NatDigits(a / Unit);
    var f := Fraction(a % Unit);
    var s := w + "." + f;
    assert s[..|s| - PriceDecimals - 1] == w;
    assert s[|s| - PriceDecimals..] == f;
    assert s[|s| - PriceDecimals - 1] == '.';
    ParseNatDigits(a / Unit);
    ParseFraction(a % Unit);
  }

  /** The displayed price reads back as the amount it was made from: the
      format loses nothing at three decimals. */
  lemma {:induction false} FormatPriceRoundTrip(m: int)
    ensures ParseAmount(FormatAmount(m)) == Some(m)
    ensures ParsePrice(FormatPrice(m)) == Some(m)
  {
    var a := if m < 0 then -m else m;
    var body := NatDigits(a / Unit) + "." + Fraction(a % Unit);
    ParseUnsignedFormat(a);
    if m < 0 {
      assert FormatAmount(m) == "-" + body;
      assert ("-" + body)[1..] == body;
    } else {
      assert FormatAmount(m) == body;
      assert body[0] == NatDigits(a / Unit)[0];
    }
    var prefix := CurrencySymbol + " ";
    assert FormatPrice(m)[..|prefix|] == prefix;
    assert FormatPrice(m)[|prefix|..] == FormatAmount(m);
  }

  /** The shape of a formatted price: symbol, one space, an optional minus,
      whole digits, exactly one '.', and exactly three fractional digits. */
  lemma FormatPriceShape(m: int)
    ensures exists sign: string, whole: string, frac: string {:trigger sign + whole + frac} ::
      (sign == "" || sign == "-") && |whole| >= 1 && AllDigits(whole) &&
      |frac| == PriceDecimals && AllDigits(frac) &&
      FormatPrice(m) == CurrencySymbol + " " + sign + whole + "." + frac
  {
    var a := if m < 0 then -m else m;
    var sign := if m < 0 then "-" else "";
    var whole := NatDigits(a / Unit);
    var frac := Fraction(a % Unit);
    assert FormatPrice(m) == CurrencySymbol + " " + sign + whole + "." + frac;
    assert sign + whole + frac == sign + whole + frac;
  }
}
