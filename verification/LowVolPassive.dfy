/** The passive comparators of the low-volatility study, scored by the same hourly ledger. */
module LowVolPassive {
  import opened Exact
  import opened Outcomes
  import opened LowVol
  import opened LowVolLedger
  import opened LowVolTheorems
  import opened LowVolResults

  datatype Kind = Btc | Equal | CashOnly

  const BTC_PORTION: real := 0.25
  const EQUAL_PORTION: real := 0.05

  function Portion(kind: Kind): real { if kind == Btc then BTC_PORTION else EQUAL_PORTION }

  function Count(kind: Kind): nat { match kind case Btc => 1 case Equal => MARKETS case CashOnly => 0 }

  datatype Passive = Passive(cash: real, fills: seq<Fill>)

  predicate Usable(bars: seq<seq<Bar>>, signal: int, c: Cost)
  {
    CostOk(c) && Indexed(bars) && Within(bars, signal - 1) && Within(bars, signal + 1)
  }

  lemma PassivePrices(bars: seq<seq<Bar>>, signal: int, c: Cost, m: nat)
    requires Usable(bars, signal, c) && m < MARKETS
    ensures var price := BuyPrice(BarAt(bars, m, signal + 1).open, c.halfSpread + c.slippage);
      && BarAt(bars, m, signal - 1).close > 0.0 && price > 0.0 && Gross(price, c.fee) > 0.0
  {
    hide BuyPrice, SellPrice, Gross, BarAt, Indexed;
    BarAtIsLookup(bars, m, signal - 1);
    BarAtIsLookup(bars, m, signal + 1);
    PricesPositive(BarAt(bars, m, signal + 1).open, c.halfSpread + c.slippage, c.fee);
  }

  /** The allocation of one market. */
  function Allocate(s: Passive, bars: seq<seq<Bar>>, signal: int, c: Cost, kind: Kind, m: nat): Outcome<Passive, Fault>
    requires Usable(bars, signal, c) && m < MARKETS
  {
    PassivePrices(bars, signal, c, m);
    var price := BuyPrice(BarAt(bars, m, signal + 1).open, c.halfSpread + c.slippage);
    var quantity := Min(Units(INITIAL_CASH * Portion(kind), BarAt(bars, m, signal - 1).close), Units(s.cash, Gross(price, c.fee)));
    if quantity <= 0.0 then Thrown(BelowQuantity)
    else
      var fee := FeeOn(quantity, price, c.fee);
      Done(Passive(s.cash - (Worth(quantity, price) + fee), s.fills + [Fill(signal + 1, m, Buy, quantity, price, fee)]))
  }

  function Allocations(bars: seq<seq<Bar>>, signal: int, c: Cost, kind: Kind, n: nat): Outcome<Passive, Fault>
    requires Usable(bars, signal, c) && n <= Count(kind)
  {
    if n == 0 then Done(Passive(INITIAL_CASH, [])) else
    var s :- Allocations(bars, signal, c, kind, n - 1);
    Allocate(s, bars, signal, c, kind, n - 1)
  }

  lemma {:induction false} AllocationsThrown(bars: seq<seq<Bar>>, signal: int, c: Cost, kind: Kind, i: nat, j: nat)
    requires Usable(bars, signal, c) && i <= j <= Count(kind) && Allocations(bars, signal, c, kind, i).Thrown?
    ensures Allocations(bars, signal, c, kind, j) == Allocations(bars, signal, c, kind, i)
  {
    hide Allocate, Usable;
    if i < j {
      AllocationsThrown(bars, signal, c, kind, i, j - 1);
    }
  }

  method PassiveFills(bars: seq<seq<Bar>>, signal: int, c: Cost, kind: Kind) returns (r: Outcome<Passive, Fault>)
    requires Usable(bars, signal, c)
    ensures r == Allocations(bars, signal, c, kind, Count(kind))
  {
    hide Usable, BuyPrice, Gross, Units, Worth, FeeOn, BarAt;
    var s := Passive(INITIAL_CASH, []);
    for m := 0 to Count(kind)
      invariant Allocations(bars, signal, c, kind, m) == Done(s)
    {
      PassivePrices(bars, signal, c, m);
      UsableShape(bars, signal, c);
      var mark := BarAt(bars, m, signal - 1).close;
      var price := BuyPrice(BarAt(bars, m, signal + 1).open, c.halfSpread + c.slippage);
      var desired, affordable := Units(INITIAL_CASH * Portion(kind), mark), Units(s.cash, Gross(price, c.fee));
      var quantity := Min(desired, affordable);
      if quantity <= 0.0 {
        AllocationsThrown(bars, signal, c, kind, m + 1, Count(kind));
        return Thrown(BelowQuantity);
      }
      var fee := FeeOn(quantity, price, c.fee);
      s := Passive(s.cash - (Worth(quantity, price) + fee), s.fills + [Fill(signal + 1, m, Buy, quantity, price, fee)]);
    }
    return Done(s);
  }

  lemma UsableShape(bars: seq<seq<Bar>>, signal: int, c: Cost)
    requires Usable(bars, signal, c)
    ensures Indexed(bars) && Within(bars, signal - 1) && Within(bars, signal + 1)
  {}

  // ----- what an allocation leaves

  /** A quantity within what the cash affords is paid for, fee included. */
  lemma PaidWithin(cash: real, quantity: real, price: real, rate: real)
    requires cash >= 0.0 && price > 0.0 && Gross(price, rate) > 0.0 && quantity <= Units(cash, Gross(price, rate))
    ensures Worth(quantity, price) + FeeOn(quantity, price, rate) <= cash
  {
    hide Gross, Worth, FeeOn;
    var coins := cash / Gross(price, rate);
    QuotientAtLeast(cash, Gross(price, rate), 0.0);
    FloorWithin(coins);
    assert Units(cash, Gross(price, rate)) <= coins;
    Affordable(cash, quantity, price, rate);
  }

  ghost predicate Posts(s: Passive)
  {
    var b := Posted(s.fills);
    b.Done? && b.value.cash == s.cash && s.cash >= 0.0 && forall m :: 0 <= m < MARKETS ==> b.value.holdings[m] >= 0.0
  }

  lemma AllocatePosts(s: Passive, bars: seq<seq<Bar>>, signal: int, c: Cost, kind: Kind, m: nat)
    requires Usable(bars, signal, c) && m < MARKETS && Posts(s) && Allocate(s, bars, signal, c, kind, m).Done?
    ensures var u := Allocate(s, bars, signal, c, kind, m).value;
      Posts(u) && |u.fills| == |s.fills| + 1 && u.fills[..|s.fills|] == s.fills && u.fills[|s.fills|].time == signal + 1
  {
    hide BuyPrice, Gross, Units, BarAt, Worth, FeeOn;
    PassivePrices(bars, signal, c, m);
    var price := BuyPrice(BarAt(bars, m, signal + 1).open, c.halfSpread + c.slippage);
    var u := Allocate(s, bars, signal, c, kind, m).value;
    var f := u.fills[|s.fills|];
    PaidWithin(s.cash, f.quantity, price, c.fee);
    TradeSigns(f.quantity, price, c.fee);
    PostedAppend(s.fills, f);
  }

  lemma {:induction false} AllocationsPost(bars: seq<seq<Bar>>, signal: int, c: Cost, kind: Kind, n: nat)
    requires Usable(bars, signal, c) && n <= Count(kind) && Allocations(bars, signal, c, kind, n).Done?
    ensures var s := Allocations(bars, signal, c, kind, n).value;
      Posts(s) && |s.fills| == n && forall i :: 0 <= i < n ==> s.fills[i].time == signal + 1
  {
    hide Allocate, Usable, Posts;
    if n == 0 {
      NothingSpent();
    } else {
      AllocationsPost(bars, signal, c, kind, n - 1);
      AllocatePosts(Allocations(bars, signal, c, kind, n - 1).value, bars, signal, c, kind, n - 1);
    }
  }

  lemma NothingSpent()
    ensures Posts(Passive(INITIAL_CASH, []))
  {}

  /** The hourly ledger scores every completed comparator, cash included, without
      raising: all fills fall in the window and never overdraw. */
  lemma {:induction false} PassiveMeasured(bars: seq<seq<Bar>>, signal: int, terminal: int, c: Cost, kind: Kind, months: set<int>)
    requires Usable(bars, signal, c) && Window(bars, signal, terminal) && signal < terminal
    requires Allocations(bars, signal, c, kind, Count(kind)).Done?
    ensures var s := Allocations(bars, signal, c, kind, Count(kind)).value;
      var r := MeasuresOf(bars, s.fills, signal, terminal, months);
      r.Done? && r.value.cash == s.cash >= 0.0
  {
    hide Hours, Posted, Marked, Opens, Indexed, Allocations, Usable, Drawdown.WorstFall;
    AllocationsPost(bars, signal, c, kind, Count(kind));
    var s := Allocations(bars, signal, c, kind, Count(kind)).value;
    var n := terminal - signal + 1;
    WalkPosts(bars, s.fills, signal, n, months);
    var w := Hours(bars, s.fills, signal, n, months).value;
    NoneLeft(s.fills, w.cursor, terminal + 1);
    assert s.fills[..|s.fills|] == s.fills;
  }

  // ----- what each allocation buys

  /** What each comparator spends on one market, and on how many markets. */
  ghost predicate PlanTold(kind: Kind, budget: real, count: nat)
  {
    match kind
    case Btc => budget == 2500.0 && count == 1
    case Equal => budget == 500.0 && count == 5
    case CashOnly => count == 0
  }

  /** The smaller of what the budget buys at the last close and what the cash
      affords at the next opening, at that opening's price. */
  ghost predicate AllocationTold(f: Fill, budget: real, before: real, after: real, mark: real, open: real, signal: int, m: nat, c: Cost)
  {
    && f.time == signal + 1 && f.market == m && f.side == Buy && f.quantity > 0.0
    && f.price == open * (1.0 + (c.halfSpread + c.slippage)) && f.fee == f.quantity * f.price * c.fee
    && after == before - f.quantity * f.price - f.fee
    && exists desired: real, affordable: real ::
         && MostUnits(desired, mark, budget) && MostUnits(affordable, WithFee(f.price, c.fee), before)
         && f.quantity == if desired <= affordable then desired else affordable
  }

  lemma PlanIsTold(kind: Kind) returns (budget: real)
    ensures PlanTold(kind, budget, Count(kind)) && (kind != CashOnly ==> budget == INITIAL_CASH * Portion(kind) > 0.0)
  {
    budget := INITIAL_CASH * Portion(kind);
  }

  lemma PassivePriceIs(open: real, c: Cost)
    ensures BuyPrice(open, c.halfSpread + c.slippage) == open * (1.0 + (c.halfSpread + c.slippage))
  {}

  /** Every allocation of a completed comparator. */
  lemma {:induction false} PassiveIsTold(bars: seq<seq<Bar>>, signal: int, c: Cost, kind: Kind, m: nat) returns (budget: real)
    requires Usable(bars, signal, c) && m < Count(kind) && Allocations(bars, signal, c, kind, m + 1).Done?
    ensures PlanTold(kind, budget, Count(kind)) && Allocations(bars, signal, c, kind, m).Done?
    ensures var s, u := Allocations(bars, signal, c, kind, m).value, Allocations(bars, signal, c, kind, m + 1).value;
      && |u.fills| == |s.fills| + 1 && u.fills == s.fills + [u.fills[|s.fills|]]
      && AllocationTold(u.fills[|s.fills|], budget, s.cash, u.cash, BarAt(bars, m, signal - 1).close, BarAt(bars, m, signal + 1).open, signal, m, c)
    ensures m == 0 ==> Allocations(bars, signal, c, kind, 0).value.cash == 10000.0
  {
    hide BuyPrice, Gross, Units, BarAt, Worth, FeeOn, Usable, MostUnits, WithFee, Posts, Portion;
    AllocationsPost(bars, signal, c, kind, m);
    var s := Allocations(bars, signal, c, kind, m).value;
    PassiveCash(s);
    UsableShape(bars, signal, c);
    PassivePrices(bars, signal, c, m);
    budget := PlanIsTold(kind);
    var mark, open := BarAt(bars, m, signal - 1).close, BarAt(bars, m, signal + 1).open;
    var price := BuyPrice(open, c.halfSpread + c.slippage);
    PassivePriceIs(open, c);
    UnitsAreMost(budget, mark);
    UnitsAreMost(s.cash, Gross(price, c.fee));
    WithFeeIs(price, c.fee);
    var desired, affordable := Units(budget, mark), Units(s.cash, Gross(price, c.fee));
    FeeIs(Min(desired, affordable), price, c.fee);
  }

  lemma PassiveCash(s: Passive)
    requires Posts(s)
    ensures s.cash >= 0.0
  {
    hide Posted;
  }
}
