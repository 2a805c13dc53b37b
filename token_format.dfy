/**
 * The token-count magnitude formatter shared by the tray title
 * (`format_tokens`) and the popover (`formatTokens`): the first of the
 * thresholds 10^9, 10^6, 10^3 that the count reaches picks the unit B, M or
 * K, and the count divided by that unit is shown with one decimal; below
 * 1000 the plain digits are shown.
 */
module TokenFormat {
  import opened Decimal

  const Thousand: nat := 1_000
  const Million: nat := 1_000_000
  const Billion: nat := 1_000_000_000

  /** `n / unit` to the nearest tenth, in tenths; a value exactly halfway rounds up. */
  function RoundedTenths(n: nat, unit: nat): (t: nat)
    requires unit > 0
    ensures -(unit as int) < 2 * t * unit - 20 * n <= unit
  {
    var num := 20 * n + unit;
    var t := num / (2 * unit);
    assert num == t * (2 * unit) + num % (2 * unit);
    t
  }

  /** `x.y` followed by the unit letter, for a count already known to reach `unit`. */
  function Scaled(n: nat, unit: nat, suffix: char): string
    requires unit > 0
  {
    var t := RoundedTenths(n, unit);
    NatToString(t / 10) + "." + [DigitChar(t % 10)] + [suffix]
  }

  function FormatTokens(n: nat): string {
    if n >= Billion then Scaled(n, Billion, 'B')
    else if n >= Million then Scaled(n, Million, 'M')
    else if n >= Thousand then Scaled(n, Thousand, 'K')
    else NatToString(n)
  }

  /** The unit a suffix letter stands for. */
  function UnitOf(suffix: char): nat {
    match suffix
    case 'B' => Billion
    case 'M' => Million
    case 'K' => Thousand
    case _ => 1
  }

  /**
   * Exactly one bracket applies, chosen by the count before any scaling:
   * the last character names the bracket, and only the plain bracket is all
   * digits.
   */
  lemma {:induction false} FormatTokensBracket(n: nat)
    ensures var s := FormatTokens(n);
      && |s| >= 1
      && (s[|s| - 1] == 'B' <==> n >= Billion)
      && (s[|s| - 1] == 'M' <==> Million <= n < Billion)
      && (s[|s| - 1] == 'K' <==> Thousand <= n < Million)
      && (AllDigits(s) <==> n < Thousand)
  {
    var s := FormatTokens(n);
    if n >= Thousand {
      assert !IsDigit(s[|s| - 1]);
    }
  }

  /** Below 1000 the output is the count's own decimal digits, with no leading zero. */
  lemma {:induction false} FormatTokensPlain(n: nat)
    requires n < Thousand
    ensures FormatTokens(n) == NatToString(n)
    ensures AllDigits(FormatTokens(n)) && DigitsValue(FormatTokens(n)) == n
    ensures |FormatTokens(n)| <= 3
  {
    NatToStringRoundTrip(n);
    if n >= 100 {
      assert NatToString(n) == NatToString(n / 10) + [DigitChar(n % 10)];
      assert |NatToString(n / 10)| == 2;
    }
  }

  /**
   * The scaled form reads "<digits>.<digit><suffix>", its integer part
   * written as `to_string` writes it (no leading zeros), and shows
   * `n / unit` to within half a tenth.
   */
  lemma {:induction false} ScaledNearest(n: nat, unit: nat, suffix: char)
    requires unit > 0
    ensures var s := Scaled(n, unit, suffix);
      && |s| >= 4
      && s[|s| - 3] == '.' && s[|s| - 1] == suffix
      && AllDigits(s[..|s| - 3]) && IsDigit(s[|s| - 2])
      && s[..|s| - 3] == NatToString(DigitsValue(s[..|s| - 3]))
      && var shown := DigitsValue(s[..|s| - 3]) * 10 + DigitValue(s[|s| - 2]);
         -(unit as int) < 2 * shown * unit - 20 * n <= unit
  {
    var s := Scaled(n, unit, suffix);
    var t := RoundedTenths(n, unit);
    var whole := NatToString(t / 10);
    assert s == whole + "." + [DigitChar(t % 10)] + [suffix];
    assert s[..|s| - 3] == whole;
    NatToStringRoundTrip(t / 10);
    assert DigitValue(s[|s| - 2]) == t % 10;
  }

  /**
   * From 1000 up the output reads "<digits>.<digit><unit>", and the decimal
   * number it shows, times the unit, is the count to within half a tenth of
   * the unit.
   */
  lemma {:induction false} FormatTokensNearest(n: nat)
    requires n >= Thousand
    ensures var s := FormatTokens(n);
      && |s| >= 4
      && s[|s| - 3] == '.'
      && AllDigits(s[..|s| - 3]) && IsDigit(s[|s| - 2])
      && s[..|s| - 3] == NatToString(DigitsValue(s[..|s| - 3]))
      && var unit := UnitOf(s[|s| - 1]);
         var shown := DigitsValue(s[..|s| - 3]) * 10 + DigitValue(s[|s| - 2]);
         -(unit as int) < 2 * shown * unit - 20 * n <= unit
  {
    var unit, suffix := Thousand, 'K';
    if n >= Billion {
      unit, suffix := Billion, 'B';
    } else if n >= Million {
      unit, suffix := Million, 'M';
    }
    assert FormatTokens(n) == Scaled(n, unit, suffix);
    assert UnitOf(suffix) == unit;
    ScaledNearest(n, unit, suffix);
  }

  lemma {:induction false} ThousandDigits()
    ensures NatToString(1) == "1"
    ensures NatToString(1000) == "1000"
  {
    assert NatToString(10) == NatToString(1) + [DigitChar(0)];
    assert NatToString(100) == NatToString(10) + [DigitChar(0)];
    assert NatToString(1000) == NatToString(100) + [DigitChar(0)];
  }

  /** Below 1000: the plain count. */
  lemma {:induction false} FormatTokensExamplesPlain()
    ensures FormatTokens(0) == "0"
    ensures FormatTokens(1) == "1"
    ensures FormatTokens(999) == "999"
  {
    assert NatToString(99) == NatToString(9) + [DigitChar(9)];
    assert NatToString(999) == NatToString(99) + [DigitChar(9)];
  }

  /** Thousands, including a count just below a million that rounds up to "1000.0K". */
  lemma {:induction false} FormatTokensExamplesThousands()
    ensures FormatTokens(1000) == "1.0K"
    ensures FormatTokens(1500) == "1.5K"
    ensures FormatTokens(999_999) == "1000.0K"
  {
    ThousandDigits();
    assert RoundedTenths(1000, Thousand) == 10;
    assert RoundedTenths(1500, Thousand) == 15;
    assert RoundedTenths(999_999, Thousand) == 10000;
  }

  /** Millions, including a count just below a billion that rounds up to "1000.0M". */
  lemma {:induction false} FormatTokensExamplesMillions()
    ensures FormatTokens(1_000_000) == "1.0M"
    ensures FormatTokens(2_500_000) == "2.5M"
    ensures FormatTokens(999_999_999) == "1000.0M"
  {
    ThousandDigits();
    assert RoundedTenths(1_000_000, Million) == 10;
    assert RoundedTenths(2_500_000, Million) == 25;
    assert RoundedTenths(999_999_999, Million) == 10000;
  }

  /** Billions. */
  lemma {:induction false} FormatTokensExamplesBillions()
    ensures FormatTokens(1_000_000_000) == "1.0B"
    ensures FormatTokens(3_700_000_000) == "3.7B"
  {
    assert RoundedTenths(1_000_000_000, Billion) == 10;
    assert RoundedTenths(3_700_000_000, Billion) == 37;
  }
}
