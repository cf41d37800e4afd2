/**
 * The key-statistics formatters of a holding's detail screen
 * (Views/HoldingDetail/StatisticsSectionView.swift).  Each takes an
 * optional value and shows a dash when it is absent.
 */
module Statistics {
  import opened Wrappers
  import opened Text

  /** The unit `formatMarketCap` scales a value to. */
  datatype Magnitude = Trillions | Billions | Millions | Ones {

    function Divisor(): real {
      match this
      case Trillions => 1_000_000_000_000.0
      case Billions => 1_000_000_000.0
      case Millions => 1_000_000.0
      case Ones => 1.0
    }

    function Suffix(): string {
      match this
      case Trillions => "T"
      case Billions => "B"
      case Millions => "M"
      case Ones => ""
    }

    /** Fraction digits shown: two for a scaled value, none otherwise. */
    function Digits(): nat {
      if this == Ones then 0 else 2
    }

    /** Position in increasing order of size. */
    function Rank(): nat {
      match this
      case Ones => 0
      case Millions => 1
      case Billions => 2
      case Trillions => 3
    }
  }

  /** The branch of `formatMarketCap` a value falls in. */
  function MarketCapMagnitude(value: real): Magnitude {
    if value >= 1_000_000_000_000.0 then Trillions
    else if value >= 1_000_000_000.0 then Billions
    else if value >= 1_000_000.0 then Millions
    else Ones
  }

  /** Each value falls in exactly the branch whose threshold it reaches and
      whose next threshold it does not; a scaled billion or million lies
      in [1, 1000). */
  lemma MarketCapBranches(value: real)
    ensures MarketCapMagnitude(value) == Trillions <==> value >= 1_000_000_000_000.0
    ensures MarketCapMagnitude(value) == Billions <==> 1_000_000_000.0 <= value < 1_000_000_000_000.0
    ensures MarketCapMagnitude(value) == Millions <==> 1_000_000.0 <= value < 1_000_000_000.0
    ensures MarketCapMagnitude(value) == Ones <==> value < 1_000_000.0
    ensures MarketCapMagnitude(value) in {Billions, Millions} ==>
      1.0 <= value / MarketCapMagnitude(value).Divisor() < 1000.0
  {
  }

  /** A larger value never gets a smaller unit. */
  lemma MarketCapMonotone(v: real, w: real)
    requires v <= w
    ensures MarketCapMagnitude(v).Rank() <= MarketCapMagnitude(w).Rank()
  {
  }

  /** `formatMarketCap(_:)`: "$", the scaled value, the unit letter. */
  function FormatMarketCap(value: Option<real>): (t: Text)
    ensures value.None? <==> t == Dash
    ensures |t| >= 1
    ensures value.Some? ==> t[0] == Char('$')
    ensures value.Some? ==> |t| >= 2 && t[2..] == Literal(MarketCapMagnitude(value.value).Suffix())
  {
    match value
    case None => Dash
    case Some(v) =>
      var m := MarketCapMagnitude(v);
      [Char('$'), Number(FractionDigits(m.Digits()), v / m.Divisor())] + Literal(m.Suffix())
  }

  /** Reads a market-cap text back: the shown value times the divisor its
      unit letter names. */
  function ReadMarketCap(t: Text): Option<real> {
    if |t| == 3 && t[0] == Char('$') && t[1].Number? && t[1].style == FractionDigits(2) then
      if t[2] == Char('T') then Some(t[1].value * 1_000_000_000_000.0)
      else if t[2] == Char('B') then Some(t[1].value * 1_000_000_000.0)
      else if t[2] == Char('M') then Some(t[1].value * 1_000_000.0)
      else None
    else if |t| == 2 && t[0] == Char('$') && t[1].Number? && t[1].style == FractionDigits(0) then
      Some(t[1].value)
    else None
  }

  /** The unit letter always matches the divisor applied, so the shown
      figure and its letter determine the value. */
  lemma MarketCapRoundTrip(value: Option<real>)
    ensures ReadMarketCap(FormatMarketCap(value)) == value
  {
    if value.Some? {
      var m := MarketCapMagnitude(value.value);
      assert Literal(m.Suffix()) == if m == Ones then [] else [Char(m.Suffix()[0])];
    }
  }

  /** `formatOptional(_:precision:)`. */
  function FormatOptional(value: Option<real>, precision: nat): (t: Text)
    ensures value.None? <==> t == Dash
  {
    match value
    case None => Dash
    case Some(v) => [Number(FractionDigits(precision), v)]
  }

  /** `formatPercent(_:)`: two fraction digits and a percent sign. */
  function FormatPercent(value: Option<real>): (t: Text)
    ensures value.None? <==> t == Dash
    ensures value.Some? ==> |t| == 2 && t[1] == Char('%')
  {
    match value
    case None => Dash
    case Some(v) => [Number(FractionDigits(2), v), Char('%')]
  }

  /** `formatCurrency(_:)`. */
  function FormatCurrency(value: Option<real>): (t: Text)
    ensures value.None? <==> t == Dash
  {
    match value
    case None => Dash
    case Some(v) => [Number(Currency, v)]
  }

  /** The value a single-number text shows, if it shows one. */
  function ShownValue(t: Text): Option<real> {
    if |t| >= 1 && t[0].Number? then Some(t[0].value) else None
  }

  /** The three plain formatters show the value itself, with the requested
      precision or style. */
  lemma PlainFormattersShowValue(value: Option<real>, precision: nat)
    ensures ShownValue(FormatOptional(value, precision)) == value
    ensures ShownValue(FormatPercent(value)) == value
    ensures ShownValue(FormatCurrency(value)) == value
    ensures value.Some? ==>
      && FormatOptional(value, precision)[0].style == FractionDigits(precision)
      && FormatPercent(value)[0].style == FractionDigits(2)
      && FormatCurrency(value)[0].style == Currency
  {
  }

  /** `formatVolume(_:)`: millions with two fraction digits, thousands with
      one, smaller counts as the plain integer. */
  function FormatVolume(value: Option<int>): (t: Text)
    ensures value.None? <==> t == Dash
  {
    match value
    case None => Dash
    case Some(v) =>
      if v >= 1_000_000 then [Number(FractionDigits(2), v as real / 1_000_000.0), Char('M')]
      else if v >= 1_000 then [Number(FractionDigits(1), v as real / 1_000.0), Char('K')]
      else Literal(IntDescription(v))
  }

  /** The characters of a text made only of characters. */
  function Chars(t: Text): Option<string> {
    if t == [] then Some("")
    else if !t[0].Char? then None
    else match Chars(t[1..])
      case None => None
      case Some(rest) => Some([t[0].c] + rest)
  }

  lemma {:induction false} CharsOfLiteral(s: string)
    ensures Chars(Literal(s)) == Some(s)
    decreases |s|
  {
    if s != [] {
      assert Literal(s)[0] == Char(s[0]);
      assert Literal(s)[1..] == Literal(s[1..]);
      CharsOfLiteral(s[1..]);
      assert [s[0]] + s[1..] == s;
    }
  }

  /** Reads a volume text back to the count it shows. */
  function ReadVolume(t: Text): Option<int> {
    if |t| == 2 && t[0].Number? && t[0].style == FractionDigits(2) && t[1] == Char('M') then
      Some((t[0].value * 1_000_000.0).Floor)
    else if |t| == 2 && t[0].Number? && t[0].style == FractionDigits(1) && t[1] == Char('K') then
      Some((t[0].value * 1_000.0).Floor)
    else match Chars(t)
      case None => None
      case Some(s) => ParseInt(s)
  }

  /** Whichever range a count falls in, its text reads back as the count. */
  lemma VolumeRoundTrip(value: Option<int>)
    ensures ReadVolume(FormatVolume(value)) == value
  {
    match value
    case None =>
      assert Dash[1..] == [];
    case Some(v) =>
      if v < 1_000 {
        CharsOfLiteral(IntDescription(v));
        IntDescriptionRoundTrip(v);
      }
  }

  /** Which unit a count is shown in: "M" with two fraction digits from a
      million up, "K" with one from a thousand up, and below that the plain
      integer; every figure shown times its unit is the count, and a
      thousands figure lies in [1, 1000). */
  lemma VolumeBranches(v: int)
    ensures var t := FormatVolume(Some(v));
      |t| >= 1 && (t[|t| - 1] == Char('M') <==> v >= 1_000_000)
    ensures var t := FormatVolume(Some(v));
      |t| >= 1 && (t[|t| - 1] == Char('K') <==> 1_000 <= v < 1_000_000)
    ensures v < 1_000 ==> FormatVolume(Some(v)) == Literal(IntDescription(v))
    ensures var t := FormatVolume(Some(v));
      v >= 1_000_000 ==>
        |t| == 2 && t[0].Number? && t[0].style == FractionDigits(2) &&
        t[0].value * 1_000_000.0 == v as real && t[0].value >= 1.0
    ensures var t := FormatVolume(Some(v));
      1_000 <= v < 1_000_000 ==>
        |t| == 2 && t[0].Number? && t[0].style == FractionDigits(1) &&
        t[0].value * 1_000.0 == v as real && 1.0 <= t[0].value < 1000.0
  {
    if v < 1_000 {
      var s := IntDescription(v);
      var t := Literal(s);
      assert IsDigit(s[|s| - 1]) by {
        if v < 0 {
          assert s == "-" + NaturalDigits(-v);
          assert s[|s| - 1] == NaturalDigits(-v)[|NaturalDigits(-v)| - 1];
        }
      }
      assert t[|t| - 1] == Char(s[|s| - 1]);
    }
  }

  /** Sample figures: a market cap of 2.85 trillion is shown as 2.85 "T", an
      average volume of 54,230,000 as 54.23 "M", and a volume of 999 as
      "999". */
  lemma SampleStatistics()
    ensures FormatMarketCap(Some(2_850_000_000_000.0)) == [Char('$'), Number(FractionDigits(2), 2.85), Char('T')]
    ensures FormatVolume(Some(54_230_000)) == [Number(FractionDigits(2), 54.23), Char('M')]
    ensures FormatVolume(Some(999)) == [Char('9'), Char('9'), Char('9')]
  {
    assert NaturalDigits(99) == "99";
    assert NaturalDigits(999) == "999";
  }
}
