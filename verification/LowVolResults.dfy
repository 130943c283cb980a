/** What every monthly rebalance does, spelled out in cash, units, bars and cost
    fields: the target, the sale and its price, the purchase and its price. */
module LowVolResults {
  import opened Exact
  import opened Outcomes
  import opened LowVol
  import opened LowVolTheorems

  /** A quarter of the cash and of what is held at the last close. */
  ghost predicate TargetTold(target: real, s: State, mark: real)
  {
    target * 4.0 == s.cash + (if s.market.Some? then s.quantity * mark else 0.0)
  }

  /** One fill at the opening moved against the order by every adverse part. */
  ghost predicate FillTold(f: Fill, time: int, market: nat, side: Side, quantity: real, open: real, c: Scenario)
  {
    && f.time == time && f.market == market && f.side == side && f.quantity == quantity > 0.0
    && f.fee == f.quantity * f.price * c.cost.fee
    && (side == Buy ==> f.price == open * (1.0 + (c.cost.halfSpread + c.cost.slippage + c.extra)))
    && (side == Sell ==> f.price == open * (1.0 - (c.cost.halfSpread + c.cost.slippage + c.extra)))
  }

  /** Everything but the decisions after one fill, or the same without one. */
  ghost predicate PostedTold(s: State, u: State, f: Option<Fill>, market: Option<nat>)
  {
    if f.None? then u == s
    else
      && u.fills == s.fills + [f.value] && u.decisions == s.decisions && u.market == market
      && u.fees == s.fees + f.value.fee && u.turnover == s.turnover + f.value.quantity * f.value.price
      && (f.value.side == Buy ==>
            u.quantity == s.quantity + f.value.quantity && u.cash == s.cash - f.value.quantity * f.value.price - f.value.fee)
      && (f.value.side == Sell ==>
            u.quantity == s.quantity - f.value.quantity && u.cash == s.cash + f.value.quantity * f.value.price - f.value.fee)
  }

  /** The sale: what is held beyond the desired units of the selected market. */
  ghost predicate SaleTold(s: State, v: State, sale: Option<Fill>, time: int, selected: nat, desired: real, open: real, c: Scenario)
  {
    var owned := if s.market == Some(selected) then desired else 0.0;
    && (sale.Some? <==> s.market.Some? && s.quantity > owned)
    && (sale.Some? ==> FillTold(sale.value, time, s.market.value, Sell, s.quantity - owned, open, c))
    && PostedTold(s, v, sale, if s.quantity == (if sale.Some? then sale.value.quantity else 0.0) then None else s.market)
  }

  /** The purchase: what is missing from the desired units, or all that the cash affords. */
  ghost predicate PurchaseTold(v: State, u: State, purchase: Option<Fill>, time: int, selected: nat, desired: real, open: real, c: Scenario)
  {
    var owned := if v.market == Some(selected) then v.quantity else 0.0;
    && (purchase.Some? <==> desired > owned)
    && (purchase.Some? ==>
          && purchase.value.quantity <= desired - owned
          && FillTold(purchase.value, time, selected, Buy, purchase.value.quantity, open, c)
          && (purchase.value.quantity < desired - owned ==>
                MostUnits(purchase.value.quantity, WithFee(purchase.value.price, c.cost.fee), v.cash)))
    && PostedTold(v, u, purchase, Some(selected))
  }

  /** The price of one unit with the fee on top. */
  function WithFee(price: real, fee: real): real { price * (1.0 + fee) }

  /** One whole rebalance at signal `k`, by way of the account `v` after its sale. */
  ghost predicate StepsTold(s: State, u: State, bars: seq<seq<Bar>>, c: Scenario, k: nat, target: real, desired: real, sale: Option<Fill>,
                            v: State, purchase: Option<Fill>)
    requires Ready(bars, c) && k < |c.signals| && (s.market.Some? ==> s.market.value < MARKETS)
  {
    SignalWithin(bars, c, k);
    var t, selected, time := c.signals[k], c.selected[k], c.signals[k] + c.fillHour;
    var held := if s.market.Some? then s.market.value else selected;
    && TargetTold(target, s, BarAt(bars, held, t - 1).close)
    && MostUnits(desired, BarAt(bars, selected, t - 1).close, target)
    && SaleTold(s.(decisions := s.decisions + [Decision(t, selected, target)]), v, sale, time, selected, desired, BarAt(bars, held, time).open, c)
    && PurchaseTold(v, u, purchase, time, selected, desired, BarAt(bars, selected, time).open, c)
    && u.cash >= 0.0 && u.quantity >= 0.0
  }

  ghost predicate RebalanceTold(s: State, u: State, bars: seq<seq<Bar>>, c: Scenario, k: nat)
    requires Ready(bars, c) && k < |c.signals| && (s.market.Some? ==> s.market.value < MARKETS)
  {
    exists target, desired, sale, v, purchase :: StepsTold(s, u, bars, c, k, target, desired, sale, v, purchase)
  }

  // ----- the arithmetic

  lemma UnitsAreMost(amount: real, price: real)
    requires amount >= 0.0 && price > 0.0
    ensures MostUnits(Units(amount, price), price, amount)
  {
    var x := amount / price;
    QuotientAtLeast(amount, price, 0.0);
    WholeWithin(x);
    var q := Units(amount, price);
    assert q <= x < q + 0.00000001 && (q * 100000000.0).Floor as real == q * 100000000.0;
    hide RoundDownUnits, Units;
    MostOf(q, x, price, amount);
  }

  lemma UnitsSign(amount: real, price: real)
    requires price > 0.0
    ensures amount < 0.0 ==> Units(amount, price) <= 0.0
  {
    if amount < 0.0 {
      QuotientAtMost(amount, price, 0.0);
    }
  }

  lemma TargetIsTold(s: State, mark: real)
    ensures TargetTold(Target(s, mark), s, mark)
  {}

  lemma PricesAre(open: real, c: Scenario)
    ensures BuyPrice(open, Adverse(c)) == open * (1.0 + (c.cost.halfSpread + c.cost.slippage + c.extra))
    ensures SellPrice(open, Adverse(c)) == open * (1.0 - (c.cost.halfSpread + c.cost.slippage + c.extra))
  {}

  lemma WithFeeIs(price: real, fee: real)
    ensures WithFee(price, fee) == Gross(price, fee)
  {}

  lemma FeeIs(quantity: real, price: real, rate: real)
    ensures Worth(quantity, price) == quantity * price && FeeOn(quantity, price, rate) == quantity * price * rate
  {}

  /** The settled sale of a rebalance. */
  lemma SaleIsTold(s: State, c: Scenario, time: int, selected: nat, desired: real, open: real) returns (sale: Option<Fill>)
    requires Settled(s) && desired >= 0.0 && SellStep(s, c, time, open, Excess(s, selected, desired)).Done?
    ensures SaleTold(s, SellStep(s, c, time, open, Excess(s, selected, desired)).value, sale, time, selected, desired, open, c)
  {
    hide Worth, FeeOn, SellPrice, Adverse;
    var excess := Excess(s, selected, desired);
    if excess == 0.0 {
      sale := None;
    } else {
      var price := SellPrice(open, Adverse(c));
      FeeIs(excess, price, c.cost.fee);
      PricesAre(open, c);
      var f := Fill(time, s.market.value, Sell, excess, price, FeeOn(excess, price, c.cost.fee));
      sale := Some(f);
    }
  }

  lemma PurchaseIsTold(v: State, c: Scenario, time: int, selected: nat, desired: real, open: real) returns (purchase: Option<Fill>)
    requires Gross(BuyPrice(open, Adverse(c)), c.cost.fee) > 0.0
    requires BuyStep(v, c, time, selected, open, Shortfall(v, selected, desired)).Done?
    ensures PurchaseTold(v, BuyStep(v, c, time, selected, open, Shortfall(v, selected, desired)).value, purchase, time, selected, desired, open, c)
  {
    hide Worth, FeeOn, BuyPrice, Adverse, Gross, Units, MostUnits, WithFee;
    var shortfall := Shortfall(v, selected, desired);
    if shortfall == 0.0 {
      purchase := None;
    } else {
      var price := BuyPrice(open, Adverse(c));
      UnitsSign(v.cash, Gross(price, c.cost.fee));
      if v.cash >= 0.0 {
        UnitsAreMost(v.cash, Gross(price, c.cost.fee));
      }
      WithFeeIs(price, c.cost.fee);
      var quantity := Min(shortfall, Units(v.cash, Gross(price, c.cost.fee)));
      FeeIs(quantity, price, c.cost.fee);
      PricesAre(open, c);
      purchase := Some(Fill(time, selected, Buy, quantity, price, FeeOn(quantity, price, c.cost.fee)));
    }
  }

  /** Every rebalance of a settled account does exactly this. */
  lemma {:induction false} RebalanceIsTold(s: State, bars: seq<seq<Bar>>, c: Scenario, k: nat)
    requires Ready(bars, c) && k < |c.signals| && Settled(s) && s.cash >= 0.0 && Rebalance(s, bars, c, k).Done?
    ensures RebalanceTold(s, Rebalance(s, bars, c, k).value, bars, c, k)
  {
    hide Ready, BarAt, Adverse, SellPrice, BuyPrice, Gross, Units, Target, SellStep, BuyStep, Excess, Shortfall, TargetTold, MostUnits,
      SaleTold, PurchaseTold;
    SignalWithin(bars, c, k);
    ReadyShape(bars, c, k);
    var t, selected, time := c.signals[k], c.selected[k], c.signals[k] + c.fillHour;
    var held := if s.market.Some? then s.market.value else selected;
    PricesGood(bars, c, selected, t - 1);
    PricesGood(bars, c, selected, time);
    PricesGood(bars, c, held, t - 1);
    PricesGood(bars, c, held, time);
    var target := Target(s, BarAt(bars, held, t - 1).close);
    TargetIsTold(s, BarAt(bars, held, t - 1).close);
    TargetNonnegative(s, BarAt(bars, held, t - 1).close);
    var desired := Units(target, BarAt(bars, selected, t - 1).close);
    UnitsAreMost(target, BarAt(bars, selected, t - 1).close);
    UnitsNonnegative(target, BarAt(bars, selected, t - 1).close);
    var decided := s.(decisions := s.decisions + [Decision(t, selected, target)]);
    var heldOpen, open := BarAt(bars, held, time).open, BarAt(bars, selected, time).open;
    SameExcess(s, decided, selected, desired);
    NothingHeld(decided, selected, desired);
    var v := SellStep(decided, c, time, heldOpen, Excess(decided, selected, desired)).value;
    var sale := SaleIsTold(decided, c, time, selected, desired, heldOpen);
    var purchase := PurchaseIsTold(v, c, time, selected, desired, open);
    var u := BuyStep(v, c, time, selected, open, Shortfall(v, selected, desired)).value;
    assert Rebalance(s, bars, c, k) == Done(u) && u.cash >= 0.0 && u.quantity >= 0.0;
    hide Rebalance;
    assert StepsTold(s, u, bars, c, k, target, desired, sale, v, purchase);
  }

  lemma SameExcess(s: State, d: State, selected: nat, desired: real)
    requires d.market == s.market && d.quantity == s.quantity && d.cash == s.cash
    ensures Excess(d, selected, desired) == Excess(s, selected, desired)
  {}

  /** After every signal of a completed replay; and the terminal equity marks what is then held. */
  lemma {:induction false} ReplayIsTold(bars: seq<seq<Bar>>, c: Scenario, k: nat)
    requires Ready(bars, c) && k < |c.signals| && Replay(bars, c, INITIAL_CASH, k + 1).Done?
    ensures Replay(bars, c, INITIAL_CASH, k).Done?
    ensures RebalanceTold(Replay(bars, c, INITIAL_CASH, k).value, Replay(bars, c, INITIAL_CASH, k + 1).value, bars, c, k)
  {
    hide Ready, Rebalance, RebalanceTold, Agrees, Timely;
    ReplaySettles(bars, c, k);
    RebalanceIsTold(Replay(bars, c, INITIAL_CASH, k).value, bars, c, k);
  }

  lemma TerminalIsTold(s: State, bars: seq<seq<Bar>>, terminal: int)
    requires Indexed(bars) && Within(bars, terminal + 1) && Settled(s)
    ensures s.market.None? ==> TerminalEquity(s, bars, terminal) == s.cash
    ensures s.market.Some? ==>
      TerminalEquity(s, bars, terminal) == s.cash + s.quantity * bars[s.market.value][terminal + 1 - bars[0][0].start].open
  {
    if s.market.None? {
      assert s.quantity * 0.0 == 0.0;
    }
  }

  /** Signals at least the shortest month apart are spaced as the replay asks. */
  lemma MonthsAreSpaced(c: Scenario)
    requires c.signals != [] && |c.selected| == |c.signals| && forall i <- c.selected :: 0 <= i < 5
    requires forall i: nat, j: nat :: i + 1 == j < |c.signals| ==> c.signals[j] - c.signals[i] >= 28 * 24
    requires c.terminal - c.signals[|c.signals| - 1] >= 28 * 24
    ensures Spaced(c)
  {
    assert forall i: nat :: i < |c.selected| ==> c.selected[i] in c.selected;
  }
}
