/**
 * Displayed text.  The app renders numbers through Foundation's
 * `.formatted(...)`, whose output (grouping, rounding, locale) is not part of
 * this model: such a rendering is kept as one `Number` glyph that carries the
 * exact value and the requested style.  Everything the app itself writes
 * around it (the "$", "+", "%", unit letters, the dash for a missing value)
 * is spelled out character by character.
 */
module Text {
  import opened Wrappers

  /** The two Foundation styles the app uses. */
  datatype NumberStyle =
    | Currency                    // .currency(code: "USD")
    | FractionDigits(digits: nat) // .number.precision(.fractionLength(digits))

  datatype Glyph =
    | Char(c: char)
    | Number(style: NumberStyle, value: real)
    | NonFinite(style: NumberStyle) // the rendering of a value that is not a finite number

  type Text = seq<Glyph>

  function Literal(s: string): (t: Text)
    ensures |t| == |s|
    ensures forall i | 0 <= i < |s| :: t[i] == Char(s[i])
  {
    if s == [] then [] else [Char(s[0])] + Literal(s[1..])
  }

  /** The text shown for an absent value. */
  const Dash: Text := [Char('—')]

  predicate IsDigit(c: char) {
    '0' <= c <= '9'
  }

  function DigitValue(c: char): (d: nat)
    requires IsDigit(c)
    ensures d < 10
  {
    (c as int) - ('0' as int)
  }

  function DigitChar(d: nat): (c: char)
    requires d < 10
    ensures IsDigit(c) && DigitValue(c) == d
  {
    "0123456789"[d]
  }

  /** Decimal digits of `n`, most significant first, without leading zeros. */
  function NaturalDigits(n: nat): (s: string)
    ensures |s| >= 1
    ensures forall i | 0 <= i < |s| :: IsDigit(s[i])
    ensures |s| > 1 ==> s[0] != '0'
    decreases n
  {
    if n < 10 then [DigitChar(n)] else NaturalDigits(n / 10) + [DigitChar(n % 10)]
  }

  /** Swift's `"\(value)"` for an `Int`: an optional minus sign and the digits. */
  function IntDescription(v: int): string {
    if v < 0 then "-" + NaturalDigits(-v) else NaturalDigits(v)
  }

  /** Reads back a string of decimal digits. */
  function ParseNatural(s: string): nat
    requires forall i | 0 <= i < |s| :: IsDigit(s[i])
  {
    if s == [] then 0
    else ParseNatural(s[..|s| - 1]) * 10 + DigitValue(s[|s| - 1])
  }

  /** Reads back an optional minus sign followed by at least one digit. */
  function ParseInt(s: string): Option<int> {
    if |s| > 1 && s[0] == '-' && (forall i | 1 <= i < |s| :: IsDigit(s[i])) then
      var magnitude: int := ParseNatural(s[1..]);
      Some(-magnitude)
    else if |s| > 0 && (forall i | 0 <= i < |s| :: IsDigit(s[i])) then
      Some(ParseNatural(s))
    else
      None
  }

  lemma {:induction false} ParseNaturalDigits(n: nat)
    ensures ParseNatural(NaturalDigits(n)) == n
    decreases n
  {
    if n >= 10 {
      var s := NaturalDigits(n / 10) + [DigitChar(n % 10)];
      assert s[..|s| - 1] == NaturalDigits(n / 10);
      ParseNaturalDigits(n / 10);
    }
  }

  /** The integer description reads back as the integer it describes. */
  lemma IntDescriptionRoundTrip(v: int)
    ensures ParseInt(IntDescription(v)) == Some(v)
  {
    if v < 0 {
      var s := "-" + NaturalDigits(-v);
      assert s[1..] == NaturalDigits(-v);
      ParseNaturalDigits(-v);
    } else {
      ParseNaturalDigits(v);
    }
  }
}
