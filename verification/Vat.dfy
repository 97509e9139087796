/** Splitting a net price into net, tax and gross, in dollars. */
module Vat {
  const DEFAULT_VAT_RATE: real := 0.11
  const HALF_CENT: real := 0.005

  // The configured rate, after trimming and Number().
  datatype RateSetting = Unset | Blank | NotFinite | Given(rate: real)

  function ResolveVatRate(raw: RateSetting): (rate: real)
    ensures 0.0 <= rate <= 1.0
    ensures raw.Given? && 0.0 <= raw.rate <= 1.0 ==> rate == raw.rate
    ensures rate > 0.0 ==> raw == Given(rate) || ((raw.Unset? || raw.Blank?) && rate == DEFAULT_VAT_RATE)
  {
    match raw
    case Unset | Blank => DEFAULT_VAT_RATE
    case NotFinite => 0.0
    case Given(rate) => if rate < 0.0 || rate > 1.0 then 0.0 else rate
  }

  datatype VatBreakdown = VatBreakdown(subtotalUsd: real, vatRate: real, vatUsd: real, totalUsd: real)

  /** Math.round: halves go up. */
  function Round(x: real): int { (x + 0.5).Floor }

  /** Rounded to whole cents. */
  function Cents(x: real): real { Round(x * 100.0) as real / 100.0 }

  function Breakdown(subtotalUsd: real, vatRate: real): VatBreakdown {
    var vatUsd := Cents(subtotalUsd * vatRate);
    VatBreakdown(subtotalUsd, vatRate, vatUsd, Cents(subtotalUsd + vatUsd))
  }

  predicate WholeCents(x: real) { (x * 100.0).Floor as real == x * 100.0 }

  lemma FloorIs(x: real, n: int)
    requires n as real <= x < n as real + 1.0
    ensures x.Floor == n
  {
  }

  /** Rounding leaves whole cents alone, and only those. */
  lemma CentsKeepsWholeCents(x: real)
    ensures WholeCents(Cents(x))
    ensures WholeCents(x) <==> Cents(x) == x
  {
    var n := Round(x * 100.0);
    assert Cents(x) * 100.0 == n as real;
    FloorIs(n as real, n);
    if WholeCents(x) {
      FloorIs(x * 100.0 + 0.5, (x * 100.0).Floor);
    }
  }

  lemma WholeCentsSum(x: real, y: real)
    requires WholeCents(y)
    ensures WholeCents(x) <==> WholeCents(x + y)
  {
    var n := (y * 100.0).Floor;
    assert (x + y) * 100.0 == x * 100.0 + n as real;
    FloorIs((x + y) * 100.0, (x * 100.0).Floor + n);
  }

  /** The three figures add up exactly when the net price is a whole number of cents. */
  lemma TotalIsExact(subtotal: real, rate: real)
    ensures var b := Breakdown(subtotal, rate);
            && WholeCents(b.vatUsd) && WholeCents(b.totalUsd)
            && (WholeCents(subtotal) <==> b.totalUsd == b.subtotalUsd + b.vatUsd)
  {
    var vat := Breakdown(subtotal, rate).vatUsd;
    CentsKeepsWholeCents(subtotal * rate);
    WholeCentsSum(subtotal, vat);
    CentsKeepsWholeCents(subtotal + vat);
  }

  lemma WholeCentsTimes(x: real, n: nat)
    requires WholeCents(x)
    ensures WholeCents(x * n as real)
  {
    var c := (x * 100.0).Floor;
    assert (x * n as real) * 100.0 == (c * n) as real by {
      assert (x * n as real) * 100.0 == (x * 100.0) * n as real;
    }
    FloorIs((x * n as real) * 100.0, c * n);
  }

  /** Priced from the plan table: multiplied first, taxed once. */
  function Quote(priceUsd: real, quantity: nat, rate: real): (b: VatBreakdown)
    requires WholeCents(priceUsd)
    ensures WholeCents(b.totalUsd) && b.totalUsd == b.subtotalUsd + b.vatUsd
  {
    WholeCentsTimes(priceUsd, quantity);
    TotalIsExact(priceUsd * quantity as real, rate);
    Breakdown(priceUsd * quantity as real, rate)
  }

  /** The tax charged is within half a cent of the tax due. */
  lemma WithinHalfCent(subtotal: real, rate: real)
    ensures -HALF_CENT <= Breakdown(subtotal, rate).vatUsd - subtotal * rate <= HALF_CENT
  {
  }

  lemma CentsMonotone(x: real, y: real)
    requires x <= y
    ensures Cents(x) <= Cents(y)
  {
    var u, v := x * 100.0 + 0.5, y * 100.0 + 0.5;
    assert u <= v;
    assert u.Floor <= v.Floor;
  }

  lemma ProductMonotone(s: real, s': real, r: real, r': real)
    requires 0.0 <= s <= s' && 0.0 <= r <= r'
    ensures s * r <= s' * r'
  {
    Scale(r, s, s');
    Scale(s', r, r');
  }

  lemma Scale(k: real, x: real, y: real)
    requires k >= 0.0 && x <= y
    ensures k * x <= k * y
  {
  }

  /** A dearer net price or a higher rate is never taxed less, nor totals less. */
  lemma TaxIsMonotone(s: real, s': real, r: real, r': real)
    requires 0.0 <= s <= s' && 0.0 <= r <= r'
    ensures Breakdown(s, r).vatUsd <= Breakdown(s', r').vatUsd
    ensures Breakdown(s, r).totalUsd <= Breakdown(s', r').totalUsd
  {
    ProductMonotone(s, s', r, r');
    CentsMonotone(s * r, s' * r');
    CentsMonotone(s + Breakdown(s, r).vatUsd, s' + Breakdown(s', r').vatUsd);
  }

  lemma Associate(k: real, unit: real, rate: real)
    ensures (k * unit) * rate == k * (unit * rate)
  {
  }

  lemma Difference(k: real, each: real, due: real)
    ensures k * (each - due) == k * each - k * due
  {
  }

  lemma Scaled(k: real, t: real, bound: real)
    requires k >= 0.0 && -bound <= t <= bound
    ensures -(k * bound) <= k * t <= k * bound
  {
    Scale(k, -bound, t);
    Scale(k, t, bound);
    assert k * -bound == -(k * bound);
  }

  /** k amounts each off by at most half a cent, against one amount off by at most half a cent. */
  lemma Spread(k: real, line: real, each: real, due: real, half: real)
    requires k >= 0.0 && -half <= line - k * due <= half && -half <= each - due <= half
    ensures -(k * half) - half <= line - k * each <= k * half + half
  {
    Scaled(k, each - due, half);
    Difference(k, each, due);
  }

  /** The tax on one line of k units, on k lines of one unit, and k times what rounding adds to one unit. */
  function LineTax(k: real, unit: real, rate: real): real { Breakdown(k * unit, rate).vatUsd }

  function UnitsTax(k: real, unit: real, rate: real): real { k * Breakdown(unit, rate).vatUsd }

  function RoundingError(k: real, unit: real, rate: real): real { k * (Breakdown(unit, rate).vatUsd - unit * rate) }

  /** One line of n units against n lines of one unit: apart by at most (n + 1) / 2 cents. */
  lemma LineVersusUnits(unit: real, rate: real, n: nat)
    ensures -(n as real * HALF_CENT) - HALF_CENT
            <= LineTax(n as real, unit, rate) - UnitsTax(n as real, unit, rate)
            <= n as real * HALF_CENT + HALF_CENT
  {
    LineSpread(n as real, unit, rate, HALF_CENT);
  }

  lemma LineSpread(k: real, unit: real, rate: real, half: real)
    requires k >= 0.0 && half == HALF_CENT
    ensures -(k * half) - half <= LineTax(k, unit, rate) - UnitsTax(k, unit, rate) <= k * half + half
  {
    var line, each := LineTax(k, unit, rate), Breakdown(unit, rate).vatUsd;
    WithinHalfCent(k * unit, rate);
    WithinHalfCent(unit, rate);
    Associate(k, unit, rate);
    Spread(k, line, each, unit * rate, half);
  }

  /** What rounds to a whole number of cents: half a cent below it up to, but not at, half a cent above. */
  lemma RoundsTo(x: real, c: real)
    requires WholeCents(c)
    ensures Cents(x) == c <==> c - HALF_CENT <= x < c + HALF_CENT
  {
    var m := (c * 100.0).Floor;
    assert c == m as real / 100.0;
    if c - HALF_CENT <= x < c + HALF_CENT {
      FloorIs(x * 100.0 + 0.5, m);
    }
  }

  /** One line is taxed like its units exactly when their rounding errors together stay within half a cent. */
  lemma LineIsUnits(unit: real, rate: real, n: nat)
    ensures LineTax(n as real, unit, rate) == UnitsTax(n as real, unit, rate) <==>
            -HALF_CENT < RoundingError(n as real, unit, rate) <= HALF_CENT
  {
    UnitsTaxIsWhole(n, unit, rate);
    LineRounds(n as real, unit, rate);
  }

  lemma LineRounds(k: real, unit: real, rate: real)
    requires WholeCents(UnitsTax(k, unit, rate))
    ensures LineTax(k, unit, rate) == UnitsTax(k, unit, rate) <==>
            -HALF_CENT < RoundingError(k, unit, rate) <= HALF_CENT
  {
    var due := (k * unit) * rate;
    Associate(k, unit, rate);
    Difference(k, Breakdown(unit, rate).vatUsd, unit * rate);
    RoundedApart(LineTax(k, unit, rate), UnitsTax(k, unit, rate), due, RoundingError(k, unit, rate));
  }

  lemma RoundedApart(line: real, units: real, due: real, error: real)
    requires WholeCents(units) && line == Cents(due) && error == units - due
    ensures line == units <==> -HALF_CENT < error <= HALF_CENT
  {
    RoundsTo(due, units);
  }

  lemma UnitsTaxIsWhole(n: nat, unit: real, rate: real)
    ensures WholeCents(UnitsTax(n as real, unit, rate))
  {
    var each := Breakdown(unit, rate).vatUsd;
    var c := (each * 100.0).Floor;
    CentsKeepsWholeCents(unit * rate);
    Associate(n as real, each, 100.0);
    assert n as real * (each * 100.0) == (n * c) as real;
    FloorIs(UnitsTax(n as real, unit, rate) * 100.0, n * c);
  }

  /** Three passes at 5.05 and 11%: one line is taxed a cent less than three. */
  lemma UnitsCanDrift()
    ensures Breakdown(3.0 * 5.05, DEFAULT_VAT_RATE).vatUsd == 1.67
    ensures 3.0 * Breakdown(5.05, DEFAULT_VAT_RATE).vatUsd == 1.68
  {
    assert 5.05 * DEFAULT_VAT_RATE * 100.0 + 0.5 == 56.05;
    assert 3.0 * 5.05 * DEFAULT_VAT_RATE * 100.0 + 0.5 == 167.15;
  }

  /** The webhook's check; a received amount that is not a finite number is not passed in. */
  predicate AmountMatches(expected: real, received: real) {
    -0.01 < expected - received < 0.01
  }

  /** Between whole-cent amounts the check is equality; otherwise it lets less than a cent pass. */
  lemma AmountCheckIsExact(expected: real, received: real)
    requires WholeCents(expected) && WholeCents(received)
    ensures AmountMatches(expected, received) <==> expected == received
  {
    assert (expected - received) * 100.0 == ((expected * 100.0).Floor - (received * 100.0).Floor) as real;
  }
}
