/** Amounts of naira as exact reals, the two-decimal rounding the dashboards
    apply with `Number(x.toFixed(2))`, and the compact `formatCurrency`
    display helper shared by the subvendor and aggregator dashboards. */
module Money {

  /** `Number(x.toFixed(2))` on an exact value: the nearest multiple of
      0.01, taking the larger one on a tie. */
  function Round2(x: real): (r: real)
    ensures (r * 100.0).Floor as real == r * 100.0
    ensures x - 0.005 < r <= x + 0.005
    ensures x >= 0.0 ==> r >= 0.0
  {
    var k := (x * 100.0 + 0.5).Floor;
    assert (k as real / 100.0) * 100.0 == k as real;
    k as real / 100.0
  }

  /** An amount that already has at most two decimals is left as it is. */
  lemma Round2OfCents(cents: int)
    ensures Round2(cents as real / 100.0) == cents as real / 100.0
  {
    var x := cents as real / 100.0;
    assert x * 100.0 + 0.5 == cents as real + 0.5;
    assert (x * 100.0 + 0.5).Floor == cents;
  }

  /** The magnitude suffix `formatCurrency` appends. */
  datatype Suffix = Plain | Thousands | Millions | Billions

  /** The power of ten a suffix stands for. */
  function Unit(s: Suffix): real {
    match s
    case Plain => 1.0
    case Thousands => 1000.0
    case Millions => 1000000.0
    case Billions => 1000000000.0
  }

  /** What `formatCurrency` prints before rounding to two decimals: the
      scaled value and its suffix (`₦1.50K` is `Compact(1.5, Thousands)`). */
  datatype Compact = Compact(scaled: real, suffix: Suffix)

  /** `formatCurrency(amount)`: the thresholds are tried from the largest
      down, and the amount is divided by the power of the first one met, so
      the printed figure is at least 1 whenever a suffix is shown and below
      1000 unless the suffix is B. */
  function FormatCurrency(amount: real): (r: Compact)
    ensures r.scaled * Unit(r.suffix) == amount
    ensures r.suffix == Billions <==> amount >= 1000000000.0
    ensures r.suffix == Millions <==> 1000000.0 <= amount < 1000000000.0
    ensures r.suffix == Thousands <==> 1000.0 <= amount < 1000000.0
    ensures r.suffix == Plain <==> amount < 1000.0
    ensures r.suffix != Plain ==> r.scaled >= 1.0
    ensures r.suffix != Billions && amount >= 0.0 ==> r.scaled < 1000.0
  {
    if amount >= 1000000000.0 then Compact(amount / 1000000000.0, Billions)
    else if amount >= 1000000.0 then Compact(amount / 1000000.0, Millions)
    else if amount >= 1000.0 then Compact(amount / 1000.0, Thousands)
    else Compact(amount, Plain)
  }

  /** A JSON field read as a number: missing or null, a number, or a value
      of some other type (a string, say). */
  datatype JsNum = Absent | Num(value: real) | NotNumber {

    /** JavaScript `this ?? fallback`: only a missing or null value falls
        back; `0` and non-numbers are kept. */
    function OrIfAbsent(fallback: JsNum): (r: JsNum)
      ensures Absent? ==> r == fallback
      ensures !Absent? ==> r == this
    {
      if Absent? then fallback else this
    }
  }
}
