/**
 * The `"$%.2f"` price text of the UI mapper: a dollar sign, a minus sign for
 * negative prices, the whole part in decimal, a dot and exactly two fraction
 * digits, rounded half up as Java's formatter does. `ParsePrice` reads such a
 * text back, so that the text can be checked against the price it shows.
 */
module PriceFormat {
  import opened Wrappers

  predicate IsDigit(c: char) {
    '0' <= c <= '9'
  }

  predicate AllDigits(s: string) {
    forall i :: 0 <= i < |s| ==> IsDigit(s[i])
  }

  function DigitChar(d: nat): (c: char)
    requires d < 10
    ensures IsDigit(c) && c as int == '0' as int + d
  {
    ('0' as int + d) as char
  }

  function DigitValue(c: char): (d: nat)
    requires IsDigit(c)
    ensures d < 10 && DigitChar(d) == c
  {
    c as int - '0' as int
  }

  /** The decimal digits of `n`, most significant first, without leading zeros. */
  function Decimal(n: nat): (s: string)
    ensures |s| >= 1 && AllDigits(s)
  {
    if n < 10 then [DigitChar(n)] else Decimal(n / 10) + [DigitChar(n % 10)]
  }

  /** The number a string of decimal digits denotes. */
  function DecimalValue(s: string): nat
    requires AllDigits(s)
  {
    if s == [] then 0 else DecimalValue(s[..|s| - 1]) * 10 + DigitValue(s[|s| - 1])
  }

  lemma {:induction false} DecimalValueOfDecimal(n: nat)
    ensures DecimalValue(Decimal(n)) == n
  {
    if n >= 10 {
      var s := Decimal(n);
      assert s[..|s| - 1] == Decimal(n / 10);
      DecimalValueOfDecimal(n / 10);
    }
  }

  lemma TwoDigitValue(a: nat, b: nat)
    requires a < 10 && b < 10
    ensures DecimalValue([DigitChar(a), DigitChar(b)]) == a * 10 + b
  {
    var s := [DigitChar(a), DigitChar(b)];
    assert s[..1] == [DigitChar(a)];
    assert s[..1][..0] == [];
    assert DecimalValue(s[..1]) == a;
    assert s[|s| - 1] == DigitChar(b);
  }

  /** Rounding half up of a non-negative value: the nearest integer, ties going up. */
  function RoundHalfUp(x: real): (r: nat)
    requires x >= 0.0
    ensures r as real - 0.5 <= x < r as real + 0.5
  {
    (x + 0.5).Floor
  }

  /** The number of cents `%.2f` shows for the magnitude of `price`. */
  function Cents(price: real): nat {
    RoundHalfUp(if price < 0.0 then -price * 100.0 else price * 100.0)
  }

  /** The price in cents that the text denotes, sign included. */
  function SignedCents(price: real): (c: int)
    ensures -0.5 <= c as real - price * 100.0 <= 0.5
  {
    if price < 0.0 then 0 - Cents(price) else Cents(price)
  }

  /** The text of an amount in cents: `$`, a minus when negative, the whole part, `.` and two digits. */
  function CentsText(negative: bool, c: nat): (s: string)
    ensures |s| >= 5 && s[0] == '$'
    ensures s[|s| - 3] == '.' && IsDigit(s[|s| - 2]) && IsDigit(s[|s| - 1])
  {
    "$" + (if negative then "-" else "") + Decimal(c / 100) + "." + [DigitChar(c / 10 % 10), DigitChar(c % 10)]
  }

  /** `DomainToUiMapper.formatPrice`: the price rounded half up to cents, sign kept. */
  function FormatPrice(price: real): (s: string)
    ensures |s| >= 5 && s[0] == '$'
    ensures s[|s| - 3] == '.' && IsDigit(s[|s| - 2]) && IsDigit(s[|s| - 1])
  {
    CentsText(price < 0.0, Cents(price))
  }

  /** Reads `<digits>.<two digits>` as an amount in cents; anything else yields None. */
  function ParseAmount(body: string): Option<nat> {
    if |body| < 4 || body[|body| - 3] != '.' then None
    else
      var whole := body[..|body| - 3];
      var fraction := body[|body| - 2..];
      if !AllDigits(whole) || !AllDigits(fraction) then None
      else Some(DecimalValue(whole) * 100 + DecimalValue(fraction))
  }

  /** Reads `$[-]<digits>.<two digits>` as a signed amount in cents; anything else yields None. */
  function ParsePrice(s: string): Option<int> {
    if |s| < 2 || s[0] != '$' then None
    else if s[1] == '-' then
      match ParseAmount(s[2..])
      case Some(cents) => Some(-(cents as int))
      case None => None
    else
      match ParseAmount(s[1..])
      case Some(cents) => Some(cents)
      case None => None
  }

  lemma ParseAmountShape(whole: string, fraction: string)
    requires |whole| >= 1 && AllDigits(whole)
    requires |fraction| == 2 && AllDigits(fraction)
    ensures ParseAmount(whole + "." + fraction) == Some(DecimalValue(whole) * 100 + DecimalValue(fraction))
  {
    var body := whole + "." + fraction;
    assert body[..|body| - 3] == whole;
    assert body[|body| - 2..] == fraction;
  }

  /** A dollar sign, an optional minus and an amount parse to the signed amount. */
  lemma ParseSigned(negative: bool, body: string, cents: nat)
    requires ParseAmount(body) == Some(cents)
    requires body != [] && IsDigit(body[0])
    ensures ParsePrice("$" + (if negative then "-" else "") + body) == Some(if negative then -(cents as int) else cents)
  {
    if negative {
      var s := "$" + "-" + body;
      assert s[1] == '-' && s[2..] == body;
    } else {
      var s := "$" + "" + body;
      assert s[1] == body[0] && s[1..] == body;
    }
  }

  /** The text of an amount in cents reads back as that amount. */
  lemma ParseCentsText(negative: bool, c: nat)
    ensures ParsePrice(CentsText(negative, c)) == Some(if negative then -(c as int) else c)
  {
    var whole := Decimal(c / 100);
    var fraction := [DigitChar(c / 10 % 10), DigitChar(c % 10)];
    var body := whole + "." + fraction;
    DecimalValueOfDecimal(c / 100);
    TwoDigitValue(c / 10 % 10, c % 10);
    SplitCents(c);
    ParseAmountShape(whole, fraction);
    assert body[0] == whole[0];
    ParseSigned(negative, body, c);
    assert CentsText(negative, c) == "$" + (if negative then "-" else "") + body;
  }

  /** The formatted text reads back as the rounded price in cents: no digit is lost or invented. */
  lemma FormatThenParse(price: real)
    ensures ParsePrice(FormatPrice(price)) == Some(SignedCents(price))
  {
    ParseCentsText(price < 0.0, Cents(price));
  }

  lemma SplitCents(c: nat)
    ensures (c / 100) * 100 + (c / 10 % 10) * 10 + c % 10 == c
  {
    var q := c / 10;
    assert c == q * 10 + c % 10;
    assert q == (q / 10) * 10 + q % 10;
    assert q / 10 == c / 100;
  }

  /** The text shows the price to within half a cent. */
  lemma FormatIsWithinHalfCent(price: real)
    ensures var c := ParsePrice(FormatPrice(price));
            c.Some? && -0.5 <= c.value as real - price * 100.0 <= 0.5
  {
    FormatThenParse(price);
  }

  /** A value with one fraction digit gets a trailing zero: 174.5 shows as "$174.50". */
  lemma FormatPadsFraction()
    ensures FormatPrice(174.5) == "$174.50"
  {
  }

  /** Two fraction digits are shown as they are: 174.55 shows as "$174.55". */
  lemma FormatKeepsCents()
    ensures FormatPrice(174.55) == "$174.55"
  {
  }

  /** Zero shows as "$0.00". */
  lemma FormatZero()
    ensures FormatPrice(0.0) == "$0.00"
  {
  }
}
