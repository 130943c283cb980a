/** Exact decimal arithmetic shared by every ledger: sums, running extremes,
    rounding down to the eight-decimal unit, and the few product facts that
    the accounts rely on.  Decimal values are modelled as reals. */
module Exact {

  datatype Option<+T> = None | Some(value: T)

  /** The number of executable units in one coin: eight decimals. */
  const UNIT_SCALE: real := 100000000.0

  function Max(a: real, b: real): real { if a >= b then a else b }

  function Min(a: real, b: real): real { if a <= b then a else b }

  /** Sum from the left, so that appending one value adds one value. */
  function Sum(s: seq<real>): real
  {
    if s == [] then 0.0 else Sum(s[..|s| - 1]) + s[|s| - 1]
  }

  lemma {:induction false} SumAppend(s: seq<real>, x: real)
    ensures Sum(s + [x]) == Sum(s) + x
  {
    assert (s + [x])[..|s|] == s;
  }

  lemma {:induction false} SumConcat(s: seq<real>, t: seq<real>)
    ensures Sum(s + t) == Sum(s) + Sum(t)
  {
    if t == [] {
      assert s + t == s;
    } else {
      var k := |t| - 1;
      assert (s + t)[..|s + t| - 1] == s + t[..k];
      SumConcat(s, t[..k]);
    }
  }

  /** A queue that drops its head loses exactly the head from its sum. */
  lemma {:induction false} SumTail(s: seq<real>)
    requires s != []
    ensures Sum(s) == s[0] + Sum(s[1..])
  {
    assert s == [s[0]] + s[1..];
    SumConcat([s[0]], s[1..]);
    assert Sum([s[0]]) == s[0] by { SumAppend([], s[0]); assert [] + [s[0]] == [s[0]]; }
  }

  /** Round a nonnegative amount of coins down to whole units. */
  function FloorUnits(scaled: real): real { scaled.Floor as real / UNIT_SCALE }

  /** Decimal rounding toward zero, which agrees with the floor on nonnegative amounts. */
  function RoundDownUnits(scaled: real): real
  {
    (if scaled >= 0.0 then scaled.Floor else -((-scaled).Floor)) as real / UNIT_SCALE
  }

  predicate WholeUnits(q: real) { (q * UNIT_SCALE).Floor as real == q * UNIT_SCALE }

  lemma FloorUnitsFacts(scaled: real)
    ensures FloorUnits(scaled) * UNIT_SCALE <= scaled
    ensures WholeUnits(FloorUnits(scaled))
    ensures scaled >= 0.0 ==> FloorUnits(scaled) >= 0.0
  {
    assert FloorUnits(scaled) * UNIT_SCALE == scaled.Floor as real;
  }

  lemma MulPos(a: real, b: real)
    requires a > 0.0 && b > 0.0
    ensures a * b > 0.0
  {}

  lemma MulNonneg(a: real, b: real)
    requires a >= 0.0 && b >= 0.0
    ensures a * b >= 0.0
  {}

  lemma MulMono(a: real, b: real, c: real)
    requires a <= b && c >= 0.0
    ensures a * c <= b * c
  {}

  lemma DivMul(a: real, b: real)
    requires b != 0.0
    ensures (a / b) * b == a
  {}

  lemma MulStrict(p: real, q: real, b: real)
    requires p > q && b > 0.0
    ensures p * b > q * b
  {
    MulPos(p - q, b);
    assert (p - q) * b == p * b - q * b;
  }

  lemma QuotientAtMost(a: real, b: real, q: real)
    requires b > 0.0 && a <= q * b
    ensures a / b <= q
  {
    DivMul(a, b);
    if a / b > q {
      MulStrict(a / b, q, b);
    }
  }

  lemma QuotientAtLeast(a: real, b: real, q: real)
    requires b > 0.0 && a >= q * b
    ensures a / b >= q
  {
    DivMul(a, b);
    if a / b < q {
      MulStrict(q, a / b, b);
    }
  }

  /** The floor of a quotient is the last whole multiple within the total. */
  lemma FloorBounds(total: real, price: real)
    requires price > 0.0
    ensures var n := (total / price).Floor as real; n * price <= total < (n + 1.0) * price
  {
    var n := (total / price).Floor as real;
    DivMul(total, price);
    MulMono(n, total / price, price);
    if total >= (n + 1.0) * price {
      QuotientAtLeast(total, price, n + 1.0);
    }
  }

  /** The most units of eight decimals that an amount pays for at a price. */
  ghost predicate MostUnits(units: real, price: real, amount: real)
  {
    && (units * 100000000.0).Floor as real == units * 100000000.0
    && units * price <= amount < (units + 0.00000001) * price
  }

  lemma WholeWithin(x: real)
    requires x >= 0.0 || RoundDownUnits(x * UNIT_SCALE) > 0.0
    ensures var q := RoundDownUnits(x * UNIT_SCALE);
      q <= x < q + 0.00000001 && (q * 100000000.0).Floor as real == q * 100000000.0
  {
    var n := (x * UNIT_SCALE).Floor;
    var q := RoundDownUnits(x * UNIT_SCALE);
    assert q * 100000000.0 == n as real;
  }

  /** Rounding a quotient down to eight decimals gives the most units. */
  lemma MostOf(q: real, x: real, price: real, amount: real)
    requires price > 0.0 && x == amount / price && q <= x < q + 0.00000001 && (q * 100000000.0).Floor as real == q * 100000000.0
    ensures MostUnits(q, price, amount)
  {
    DivMul(amount, price);
    MulMono(q, x, price);
    if amount >= (q + 0.00000001) * price {
      QuotientAtLeast(amount, price, q + 0.00000001);
    }
  }

  /** Rounding an amount of coins down to whole units keeps it within the amount. */
  lemma FloorWithin(amount: real)
    requires amount >= 0.0
    ensures 0.0 <= FloorUnits(amount * UNIT_SCALE) <= amount
  {
    FloorUnitsFacts(amount * UNIT_SCALE);
  }

  /** What a quantity is worth at a price. */
  function Worth(quantity: real, price: real): real { quantity * price }

  /** The fee on a trade, as a fraction of what it is worth. */
  function FeeOn(quantity: real, price: real, rate: real): real { Worth(quantity, price) * rate }

  /** The price of one unit with its fee. */
  function Gross(price: real, rate: real): real { price * (1.0 + rate) }

  lemma GrossPositive(price: real, rate: real)
    requires price > 0.0 && rate >= 0.0
    ensures Gross(price, rate) > 0.0
  {
    MulPos(price, 1.0 + rate);
  }

  /** What a unit costs, and what it brings, when the price moves against the order by a fraction. */
  function BuyPrice(open: real, adverse: real): real { open * (1.0 + adverse) }

  function SellPrice(open: real, adverse: real): real { open * (1.0 - adverse) }

  lemma PricesPositive(open: real, adverse: real, fee: real)
    requires open > 0.0 && 0.0 <= adverse < 1.0 && fee >= 0.0
    ensures BuyPrice(open, adverse) > 0.0 && SellPrice(open, adverse) > 0.0 && Gross(BuyPrice(open, adverse), fee) > 0.0
  {
    BuyPositive(open, adverse);
    SellPositive(open, adverse);
    hide BuyPrice, SellPrice, Gross;
    GrossPositive(BuyPrice(open, adverse), fee);
  }

  lemma BuyPositive(open: real, adverse: real)
    requires open > 0.0 && adverse >= 0.0
    ensures BuyPrice(open, adverse) > 0.0
  {
    MulPos(open, 1.0 + adverse);
  }

  lemma SellPositive(open: real, adverse: real)
    requires open > 0.0 && adverse < 1.0
    ensures SellPrice(open, adverse) > 0.0
  {
    MulPos(open, 1.0 - adverse);
  }

  lemma TradeSigns(quantity: real, price: real, rate: real)
    requires quantity > 0.0 && price > 0.0 && rate >= 0.0
    ensures Worth(quantity, price) > 0.0 && FeeOn(quantity, price, rate) >= 0.0
  {
    MulPos(quantity, price);
    MulNonneg(Worth(quantity, price), rate);
  }

  /** A rate below one charges less than the trade is worth. */
  lemma FeeWithin(quantity: real, price: real, rate: real)
    requires quantity > 0.0 && price > 0.0 && 0.0 <= rate < 1.0
    ensures 0.0 <= FeeOn(quantity, price, rate) < Worth(quantity, price)
  {
    TradeSigns(quantity, price, rate);
    var worth := Worth(quantity, price);
    MulStrict(1.0, rate, worth);
    assert rate * worth == FeeOn(quantity, price, rate);
  }

  /** A gross price pays the worth and the fee. */
  lemma GrossPays(quantity: real, price: real, rate: real)
    ensures quantity * Gross(price, rate) == Worth(quantity, price) + FeeOn(quantity, price, rate)
  {
    var worth := Worth(quantity, price);
    calc {
      quantity * Gross(price, rate);
      quantity * (price * (1.0 + rate));
      worth * (1.0 + rate);
      worth + worth * rate;
    }
  }

  /** What an amount affords at a gross price, or less, leaves worth and fee payable. */
  lemma Affordable(amount: real, quantity: real, price: real, rate: real)
    requires Gross(price, rate) > 0.0 && quantity <= amount / Gross(price, rate)
    ensures Worth(quantity, price) + FeeOn(quantity, price, rate) <= amount
  {
    GrossPays(quantity, price, rate);
    hide Gross, Worth, FeeOn;
    var gross := Gross(price, rate);
    MulMono(quantity, amount / gross, gross);
    DivMul(amount, gross);
  }
}
