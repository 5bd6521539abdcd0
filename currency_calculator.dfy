/**
 * The CurrencyCalculator component: two linked text fields, US dollars and
 * won, tied by a fixed rate. Typing in one field sanitises the text and
 * rewrites the other field.
 */
module CurrencyCalculator {
  import opened Numeric
  import opened Seqs

  /** The component's fixed dollar-to-won rate. */
  const ExchangeRate: real := 1340.50

  /**
   * What a field shows: text as typed (after sanitising), a number as
   * toLocaleString renders it, or a number as toFixed(2) renders it (the
   * renderings themselves are not modelled).
   */
  datatype Field = Typed(text: string) | Localized(n: Num) | Fixed(v: real)

  /** The characters `/[^0-9.]/g` does not remove. */
  predicate IsDigitOrDot(c: char)
  {
    IsDigit(c) || c == '.'
  }

  predicate IsDigitOrComma(c: char)
  {
    IsDigit(c) || c == ','
  }

  predicate IsNotComma(c: char)
  {
    c != ','
  }

  /** `value.replace(/[^0-9.]/g, '')`. */
  function DollarText(input: string): string
  {
    Filter(input, IsDigitOrDot)
  }

  /** `value.replace(/[^0-9,]/g, '').replace(/,/g, '')`. */
  function WonText(input: string): string
  {
    Filter(Filter(input, IsDigitOrComma), IsNotComma)
  }

  /**
   * The dollar field keeps exactly the digits and dots of what was typed,
   * each as often as it was typed, and in the same order (it is a filter).
   */
  lemma DollarTextKeepsDigitsAndDots(input: string, c: char)
    ensures multiset(DollarText(input))[c] == if IsDigitOrDot(c) then multiset(input)[c] else 0
    ensures forall i :: 0 <= i < |DollarText(input)| ==> IsDigitOrDot(DollarText(input)[i])
  {
    FilterMultiplicity(input, IsDigitOrDot, c);
  }

  /** Sanitising already sanitised dollar text changes nothing. */
  lemma DollarTextIdempotent(input: string)
    ensures DollarText(DollarText(input)) == DollarText(input)
  {
    FilterIdempotent(input, IsDigitOrDot);
  }

  /** The won field's two replacements together keep exactly the digits. */
  lemma WonTextIsDigits(input: string)
    ensures WonText(input) == Filter(input, IsDigit)
    ensures AllDigits(WonText(input))
  {
    FilterFilter(input, IsDigitOrComma, IsNotComma, IsDigit);
  }

  /** The won sanitiser is idempotent too. */
  lemma WonTextIdempotent(input: string)
    ensures WonText(WonText(input)) == WonText(input)
  {
    WonTextIsDigits(input);
    WonTextIsDigits(WonText(input));
    FilterAllAccepted(WonText(input), IsDigit);
  }

  /** The dollar text never holds a minus sign, so it never parses negative. */
  lemma DollarTextNonNegative(input: string)
    ensures ParseFloat(DollarText(input)).Finite? ==> ParseFloat(DollarText(input)).v >= 0.0
  {
    FilterMultiplicity(input, IsDigitOrDot, '-');
    assert '-' !in multiset(DollarText(input));
    ParseFloatNonNegative(DollarText(input));
  }

  /** The won field after typing in the dollar field: `(parseFloat(value) || 0) * exchangeRate`. */
  function WonFor(parsed: Num): (w: real)
    requires parsed.Finite? || parsed.NaN?
    ensures parsed.NaN? ==> w == 0.0
    ensures parsed.Finite? ==> w == parsed.v * ExchangeRate
  {
    OrZero(parsed) * ExchangeRate
  }

  /** The dollar field after typing in the won field: `((parseFloat(value) || 0) / exchangeRate).toFixed(2)`. */
  function DollarsFor(parsed: Num): (d: real)
    requires parsed.Finite? || parsed.NaN?
    ensures IsCents(d)
    ensures parsed.NaN? ==> d == 0.0
    ensures parsed.Finite? ==> -0.005 <= d - parsed.v / ExchangeRate <= 0.005
  {
    JsFixed2(OrZero(parsed) / ExchangeRate)
  }

  /**
   * Converting a dollar amount to won and the won back to dollars gives the
   * amount rounded to cents, and a whole number of cents exactly.
   */
  lemma DollarsWonRoundTrip(x: real)
    ensures DollarsFor(Finite(WonFor(Finite(x)))) == JsFixed2(x)
    ensures IsCents(x) ==> DollarsFor(Finite(WonFor(Finite(x)))) == x
  {
    assert (x * ExchangeRate) / ExchangeRate == x;
    if IsCents(x) {
      RoundingKeepsCents(x);
    }
  }

  /** Typing won digits puts their value, converted and rounded to cents, in the dollar field. */
  lemma WonDigitsToDollars(input: string)
    ensures WonText(input) == "" ==> DollarsFor(ParseFloat(WonText(input))) == 0.0
    ensures WonText(input) != "" ==>
      ParseFloat(WonText(input)) == Finite(DigitsValue(WonText(input)) as real)
  {
    WonTextIsDigits(input);
    if WonText(input) == "" {
      ParseFloatEmpty();
    } else {
      ParseFloatDigits(WonText(input));
    }
  }

  class CurrencyCalculatorState {
    var fromAmount: Field
    var toAmount: Field

    constructor ()
      ensures fromAmount == Typed("100") && toAmount == Typed("134,050")
    {
      fromAmount := Typed("100");
      toAmount := Typed("134,050");
    }

    /**
     * handleFromAmountChange: the dollar field shows the sanitised text and
     * the won field its converted, non-negative value.
     */
    method HandleFromAmountChange(input: string)
      modifies this
      ensures fromAmount == Typed(DollarText(input))
      ensures toAmount == Localized(Finite(WonFor(ParseFloat(DollarText(input)))))
      ensures toAmount.n.v >= 0.0
    {
      var value := DollarText(input);
      fromAmount := Typed(value);
      DollarTextNonNegative(input);
      toAmount := Localized(Finite(WonFor(ParseFloat(value))));
    }

    /**
     * handleToAmountChange: the won field shows the parsed digits (NaN when
     * none were typed) and the dollar field the converted amount in cents.
     */
    method HandleToAmountChange(input: string)
      modifies this
      ensures toAmount == Localized(ParseFloat(WonText(input)))
      ensures fromAmount == Fixed(DollarsFor(ParseFloat(WonText(input))))
      ensures WonText(input) == "" ==> toAmount.n.NaN? && fromAmount.v == 0.0
    {
      var value := Filter(Filter(input, IsDigitOrComma), IsNotComma);
      var parsed := ParseFloat(value);
      toAmount := Localized(parsed);
      var base := if parsed.Finite? && parsed.v != 0.0 then parsed.v else 0.0;
      fromAmount := Fixed(JsFixed2(base / ExchangeRate));
      if value == "" {
        ParseFloatEmpty();
      }
    }
  }
}
