/** The five-market low-volatility study: a monthly replay that holds one
    market, and the independent hourly ledger that remarks any list of fills. */
module LowVol {
  import opened Exact
  import opened Outcomes

  datatype Bar = Bar(start: int, open: real, high: real, low: real, close: real)
  datatype Side = Buy | Sell
  datatype Fill = Fill(time: int, market: nat, side: Side, quantity: real, price: real, fee: real)
  datatype Decision = Decision(time: int, selected: nat, target: real)

  const MARKETS: nat := 5
  const SLEEVE: real := 0.25
  const INITIAL_CASH: real := 10000.0

  datatype Cost = Cost(fee: real, halfSpread: real, slippage: real)

  /** A scenario: the monthly signals before the terminal one, and the market
      the volatility rank selected at each of them. */
  datatype Scenario = Scenario(cost: Cost, extra: real, fillHour: int, sellFilled: bool,
                               signals: seq<int>, selected: seq<nat>, terminal: int)

  datatype Fault = InvalidCost | InvalidSensitivity | InvalidBars | MissingHistory | MissingTerminal | SellNotFinal | BelowQuantity
                 | Negative | InvalidFill | OutsideWindow

  // ----- bars

  predicate GoodBar(b: Bar)
  {
    b.open > 0.0 && b.high > 0.0 && b.low > 0.0 && b.close > 0.0 && b.high >= Max(b.open, b.close) && b.low <= Min(b.open, b.close)
  }

  predicate GoodSeries(s: seq<Bar>)
  {
    s != [] && (forall i: nat :: i < |s| ==> GoodBar(s[i])) && forall i: nat, j: nat :: i + 1 == j < |s| ==> s[j].start == s[i].start + 1
  }

  predicate Indexed(bars: seq<seq<Bar>>)
  {
    && |bars| == MARKETS
    && (forall m: nat :: m < MARKETS ==> GoodSeries(bars[m]))
    && forall m: nat :: m < MARKETS ==> bars[m][0].start == bars[0][0].start && |bars[m]| == |bars[0]|
  }

  predicate Within(bars: seq<seq<Bar>>, t: int)
    requires Indexed(bars)
  {
    bars[0][0].start <= t < bars[0][0].start + |bars[0]|
  }

  /** The bar of a market at an hour. */
  function BarAt(bars: seq<seq<Bar>>, m: nat, t: int): Bar
    requires Indexed(bars) && m < MARKETS && Within(bars, t)
  {
    bars[m][t - bars[0][0].start]
  }

  lemma {:induction false} SeriesStarts(s: seq<Bar>, i: nat)
    requires GoodSeries(s) && i < |s|
    ensures s[i].start == s[0].start + i
  {
    if i > 0 {
      SeriesStarts(s, i - 1);
    }
  }

  /** The position in the common window is the lookup by hour, and its prices are good. */
  lemma BarAtIsLookup(bars: seq<seq<Bar>>, m: nat, t: int)
    requires Indexed(bars) && m < MARKETS && Within(bars, t)
    ensures BarAt(bars, m, t).start == t && GoodBar(BarAt(bars, m, t))
    ensures forall b <- bars[m] :: b.start == t ==> b == BarAt(bars, m, t)
  {
    hide GoodBar;
    SeriesStarts(bars[m], t - bars[0][0].start);
    forall i: nat | i < |bars[m]| && bars[m][i].start == t
      ensures bars[m][i] == BarAt(bars, m, t)
    {
      SeriesStarts(bars[m], i);
    }
  }

  method CheckSeries(s: seq<Bar>) returns (ok: bool)
    ensures ok <==> GoodSeries(s)
  {
    if s == [] {
      return false;
    }
    for i := 0 to |s|
      invariant forall k: nat :: k < i ==> GoodBar(s[k])
      invariant forall k: nat, j: nat :: k + 1 == j < i ==> s[j].start == s[k].start + 1
    {
      var b := s[i];
      if i > 0 && b.start != s[i - 1].start + 1 {
        return false;
      }
      if b.open <= 0.0 || b.high <= 0.0 || b.low <= 0.0 || b.close <= 0.0 || b.high < b.open || b.high < b.close || b.low > b.open
         || b.low > b.close {
        return false;
      }
    }
    return true;
  }

  method IndexBars(bars: seq<seq<Bar>>) returns (ok: bool)
    ensures ok <==> Indexed(bars)
  {
    hide GoodSeries;
    if |bars| != MARKETS {
      return false;
    }
    for m := 0 to MARKETS
      invariant forall k: nat :: k < m ==> GoodSeries(bars[k]) && bars[k] != []
      invariant forall k: nat :: k < m ==> bars[k][0].start == bars[0][0].start && |bars[k]| == |bars[0]|
    {
      var good := CheckSeries(bars[m]);
      SeriesNonempty(bars[m]);
      if !good {
        return false;
      }
      SeriesNonempty(bars[0]);
      SeriesEnds(bars[0], bars[m]);
      if bars[m][0].start != bars[0][0].start || bars[m][|bars[m]| - 1].start != bars[0][|bars[0]| - 1].start {
        return false;
      }
    }
    return true;
  }

  lemma SeriesNonempty(s: seq<Bar>)
    ensures GoodSeries(s) ==> s != []
  {}

  lemma LastStart(s: seq<Bar>)
    ensures GoodSeries(s) ==> s != [] && s[|s| - 1].start == s[0].start + |s| - 1
  {
    if GoodSeries(s) {
      SeriesStarts(s, |s| - 1);
    }
  }

  /** Equal first and last hours mean equal lengths. */
  lemma SeriesEnds(a: seq<Bar>, b: seq<Bar>)
    ensures GoodSeries(a) && GoodSeries(b) && a[0].start == b[0].start ==>
      (a[|a| - 1].start == b[|b| - 1].start <==> |a| == |b|)
  {
    if GoodSeries(a) && GoodSeries(b) {
      SeriesStarts(a, |a| - 1);
      SeriesStarts(b, |b| - 1);
    }
  }

  // ----- the arithmetic of a rebalance

  function Adverse(c: Scenario): real { c.cost.halfSpread + c.cost.slippage + c.extra }

  /** The whole units an amount of money buys at a price. */
  function Units(amount: real, price: real): real
    requires price != 0.0
  {
    RoundDownUnits(amount / price * UNIT_SCALE)
  }

  predicate CostOk(c: Cost)
  {
    c.fee >= 0.0 && c.halfSpread >= 0.0 && c.slippage >= 0.0 && c.halfSpread + c.slippage < 1.0
  }

  /** Signals are more than two hours apart, the terminal one included. */
  predicate Spaced(c: Scenario)
  {
    && c.signals != [] && |c.selected| == |c.signals|
    && (forall i: nat, j: nat :: i + 1 == j < |c.signals| ==> c.signals[i] + 2 < c.signals[j])
    && c.signals[|c.signals| - 1] + 2 < c.terminal
    && forall i: nat :: i < |c.selected| ==> c.selected[i] < MARKETS
  }

  const WARMUP := 60 * 24 + 1

  /** Everything the replay checks before its loop. */
  predicate Ready(bars: seq<seq<Bar>>, c: Scenario)
  {
    && CostOk(c.cost) && 1 <= c.fillHour <= 2 && c.extra >= 0.0 && Adverse(c) < 1.0
    && Spaced(c) && Indexed(bars)
    && bars[0][0].start <= c.signals[0] - WARMUP && Within(bars, c.terminal + 1)
  }

  datatype State = State(cash: real, market: Option<nat>, quantity: real, fees: real, turnover: real,
                         fills: seq<Fill>, decisions: seq<Decision>)

  function Initial(cash: real): State { State(cash, None, 0.0, 0.0, 0.0, [], []) }

  function Sold(s: State, time: int, quantity: real, price: real, rate: real): State
    requires s.market.Some?
  {
    var notional, fee := Worth(quantity, price), FeeOn(quantity, price, rate);
    State(s.cash + (notional - fee), if s.quantity - quantity == 0.0 then None else s.market, s.quantity - quantity,
          s.fees + fee, s.turnover + notional, s.fills + [Fill(time, s.market.value, Sell, quantity, price, fee)], s.decisions)
  }

  function Bought(s: State, time: int, selected: nat, quantity: real, price: real, rate: real): State
  {
    var notional, fee := Worth(quantity, price), FeeOn(quantity, price, rate);
    State(s.cash - (notional + fee), Some(selected), s.quantity + quantity,
          s.fees + fee, s.turnover + notional, s.fills + [Fill(time, selected, Buy, quantity, price, fee)], s.decisions)
  }

  /** How much of the held market to sell. */
  function Excess(s: State, selected: nat, desired: real): real
  {
    if s.market.None? then 0.0 else Max(0.0, s.quantity - (if s.market == Some(selected) then desired else 0.0))
  }

  function Shortfall(s: State, selected: nat, desired: real): real
  {
    Max(0.0, desired - (if s.market == Some(selected) then s.quantity else 0.0))
  }

  function SellStep(s: State, c: Scenario, time: int, heldOpen: real, excess: real): Outcome<State, Fault>
    requires s.market.None? ==> excess == 0.0
  {
    if excess == 0.0 then Done(s)
    else if !c.sellFilled then Thrown(SellNotFinal)
    else Done(Sold(s, time, excess, SellPrice(heldOpen, Adverse(c)), c.cost.fee))
  }

  function BuyStep(s: State, c: Scenario, time: int, selected: nat, open: real, shortfall: real): Outcome<State, Fault>
    requires Gross(BuyPrice(open, Adverse(c)), c.cost.fee) != 0.0
  {
    if shortfall == 0.0 then Done(s)
    else
      var price := BuyPrice(open, Adverse(c));
      var quantity := Min(shortfall, Units(s.cash, Gross(price, c.cost.fee)));
      if quantity <= 0.0 then Thrown(BelowQuantity) else Done(Bought(s, time, selected, quantity, price, c.cost.fee))
  }

  function Target(s: State, mark: real): real
  {
    (s.cash + (if s.market.Some? then Worth(s.quantity, mark) else 0.0)) * SLEEVE
  }

  lemma PricesGood(bars: seq<seq<Bar>>, c: Scenario, m: nat, t: int)
    requires Ready(bars, c) && m < MARKETS && Within(bars, t)
    ensures var b := BarAt(bars, m, t);
      && b.close > 0.0 && b.open > 0.0
      && SellPrice(b.open, Adverse(c)) > 0.0 && BuyPrice(b.open, Adverse(c)) > 0.0
      && Gross(BuyPrice(b.open, Adverse(c)), c.cost.fee) > 0.0
  {
    hide BuyPrice, SellPrice, Gross, GoodSeries, Spaced, BarAt;
    BarAtIsLookup(bars, m, t);
    PricesPositive(BarAt(bars, m, t).open, Adverse(c), c.cost.fee);
  }

  lemma SignalWithin(bars: seq<seq<Bar>>, c: Scenario, k: nat)
    requires Ready(bars, c) && k < |c.signals|
    ensures c.signals[0] <= c.signals[k] && c.signals[k] + 2 < c.terminal
    ensures forall t :: c.signals[k] - WARMUP <= t <= c.terminal + 1 ==> Within(bars, t)
  {
    SignalsGrow(c, 0, k);
    SignalsGrow(c, k, |c.signals| - 1);
  }

  lemma {:induction false} SignalsGrow(c: Scenario, i: nat, j: nat)
    requires Spaced(c) && i <= j < |c.signals|
    ensures c.signals[i] <= c.signals[j] && (i < j ==> c.signals[i] + 2 < c.signals[j])
    decreases j
  {
    if i < j {
      SignalsGrow(c, i, j - 1);
    }
  }

  /** One monthly rebalance: settle the sale before any replacement purchase. */
  function Rebalance(s: State, bars: seq<seq<Bar>>, c: Scenario, k: nat): Outcome<State, Fault>
    requires Ready(bars, c) && k < |c.signals| && (s.market.Some? ==> s.market.value < MARKETS)
  {
    SignalWithin(bars, c, k);
    var t, selected, time := c.signals[k], c.selected[k], c.signals[k] + c.fillHour;
    PricesGood(bars, c, selected, t - 1);
    PricesGood(bars, c, selected, time);
    var held := if s.market.Some? then s.market.value else selected;
    var target := Target(s, BarAt(bars, held, t - 1).close);
    var desired := Units(target, BarAt(bars, selected, t - 1).close);
    var decided := s.(decisions := s.decisions + [Decision(t, selected, target)]);
    var sold :- SellStep(decided, c, time, BarAt(bars, held, time).open, Excess(s, selected, desired));
    var bought :- BuyStep(sold, c, time, selected, BarAt(bars, selected, time).open, Shortfall(sold, selected, desired));
    if bought.cash < 0.0 || bought.quantity < 0.0 then Thrown(Negative) else Done(bought)
  }

  /** The state after `n` signals. */
  function Replay(bars: seq<seq<Bar>>, c: Scenario, cash: real, n: nat): (r: Outcome<State, Fault>)
    requires Ready(bars, c) && n <= |c.signals|
    ensures r.Done? ==> r.value.market.Some? ==> r.value.market.value < MARKETS
  {
    if n == 0 then Done(Initial(cash)) else
    var s :- Replay(bars, c, cash, n - 1);
    Rebalance(s, bars, c, n - 1)
  }

  function TerminalEquity(s: State, bars: seq<seq<Bar>>, terminal: int): real
    requires Indexed(bars) && Within(bars, terminal + 1) && (s.market.Some? ==> s.market.value < MARKETS)
  {
    s.cash + Worth(s.quantity, if s.market.Some? then BarAt(bars, s.market.value, terminal + 1).open else 0.0)
  }

  method SettleSale(s: State, c: Scenario, time: int, heldOpen: real, excess: real) returns (r: Outcome<State, Fault>)
    requires s.market.None? ==> excess == 0.0
    ensures r == SellStep(s, c, time, heldOpen, excess)
  {
    hide Worth, FeeOn, SellPrice, Adverse;
    if excess == 0.0 {
      return Done(s);
    }
    if !c.sellFilled {
      return Thrown(SellNotFinal);
    }
    var price := SellPrice(heldOpen, Adverse(c));
    var notional, fee := Worth(excess, price), FeeOn(excess, price, c.cost.fee);
    var market := s.market;
    if s.quantity - excess == 0.0 {
      market := None;
    }
    return Done(State(s.cash + (notional - fee), market, s.quantity - excess, s.fees + fee, s.turnover + notional,
                      s.fills + [Fill(time, s.market.value, Sell, excess, price, fee)], s.decisions));
  }

  method SettlePurchase(s: State, c: Scenario, time: int, selected: nat, open: real, shortfall: real) returns (r: Outcome<State, Fault>)
    requires Gross(BuyPrice(open, Adverse(c)), c.cost.fee) != 0.0
    ensures r == BuyStep(s, c, time, selected, open, shortfall)
  {
    hide Worth, FeeOn, BuyPrice, Adverse, Units, Gross;
    if shortfall == 0.0 {
      return Done(s);
    }
    var price := BuyPrice(open, Adverse(c));
    var quantity := Min(shortfall, Units(s.cash, Gross(price, c.cost.fee)));
    if quantity <= 0.0 {
      return Thrown(BelowQuantity);
    }
    var notional, fee := Worth(quantity, price), FeeOn(quantity, price, c.cost.fee);
    return Done(State(s.cash - (notional + fee), Some(selected), s.quantity + quantity, s.fees + fee, s.turnover + notional,
                      s.fills + [Fill(time, selected, Buy, quantity, price, fee)], s.decisions));
  }

  lemma {:induction false} ThrownStays(bars: seq<seq<Bar>>, c: Scenario, cash: real, i: nat, j: nat)
    requires Ready(bars, c) && i <= j <= |c.signals| && Replay(bars, c, cash, i).Thrown?
    ensures Replay(bars, c, cash, j) == Replay(bars, c, cash, i)
  {
    hide Ready;
    if i < j {
      ThrownStays(bars, c, cash, i, j - 1);
    }
  }

  /** The program's loop, one iteration per monthly signal. */
  method RunReplay(bars: seq<seq<Bar>>, c: Scenario, cash: real) returns (r: Outcome<(State, real), Fault>)
    requires Spaced(c)
    ensures r.Done? ==> Ready(bars, c) && cash > 0.0
    ensures Ready(bars, c) && cash > 0.0 ==>
      var replayed := Replay(bars, c, cash, |c.signals|);
      if replayed.Thrown? then r == Thrown(replayed.fault)
      else r == Done((replayed.value, TerminalEquity(replayed.value, bars, c.terminal)))
  {
    hide GoodSeries, Worth, Units, Target, SellStep, BuyStep, Excess, Shortfall, BuyPrice;
    if c.cost.fee < 0.0 || c.cost.halfSpread < 0.0 || c.cost.slippage < 0.0 || c.cost.halfSpread + c.cost.slippage >= 1.0 {
      return Thrown(InvalidCost);
    }
    if cash <= 0.0 || c.fillHour !in {1, 2} || c.extra < 0.0 {
      return Thrown(InvalidSensitivity);
    }
    var indexed := IndexBars(bars);
    if !indexed {
      return Thrown(InvalidBars);
    }
    SeriesNonempty(bars[0]);
    if bars[0][0].start > c.signals[0] - 60 * 24 - 1 {
      return Thrown(MissingHistory);
    }
    if c.terminal + 1 < bars[0][0].start || c.terminal + 1 > bars[0][|bars[0]| - 1].start {
      LastStart(bars[0]);
      return Thrown(MissingTerminal);
    }
    LastStart(bars[0]);
    if c.cost.halfSpread + c.cost.slippage + c.extra >= 1.0 {
      return Thrown(InvalidCost);
    }
    var s := Initial(cash);
    for k := 0 to |c.signals|
      invariant Replay(bars, c, cash, k) == Done(s)
    {
      var next := RebalanceOnce(s, bars, c, k);
      if next.Thrown? {
        ThrownStays(bars, c, cash, k + 1, |c.signals|);
        return Thrown(next.fault);
      }
      s := next.value;
    }
    return Done((s, TerminalEquity(s, bars, c.terminal)));
  }

  method RebalanceOnce(s: State, bars: seq<seq<Bar>>, c: Scenario, k: nat) returns (r: Outcome<State, Fault>)
    requires Ready(bars, c) && k < |c.signals| && (s.market.Some? ==> s.market.value < MARKETS)
    ensures r == Rebalance(s, bars, c, k)
  {
    hide Ready, Adverse, Gross, BuyPrice, SellPrice, Units, Target, SellStep, BuyStep, Excess, Shortfall, BarAt;
    SignalWithin(bars, c, k);
    ReadyShape(bars, c, k);
    var t, selected, time := c.signals[k], c.selected[k], c.signals[k] + c.fillHour;
    PricesGood(bars, c, selected, t - 1);
    PricesGood(bars, c, selected, time);
    var held := if s.market.Some? then s.market.value else selected;
    var target := Target(s, BarAt(bars, held, t - 1).close);
    var desired := Units(target, BarAt(bars, selected, t - 1).close);
    var decided := s.(decisions := s.decisions + [Decision(t, selected, target)]);
    NothingHeld(s, selected, desired);
    var sold := SettleSale(decided, c, time, BarAt(bars, held, time).open, Excess(s, selected, desired));
    if sold.Thrown? {
      return sold;
    }
    var bought := SettlePurchase(sold.value, c, time, selected, BarAt(bars, selected, time).open, Shortfall(sold.value, selected, desired));
    if bought.Thrown? {
      return bought;
    }
    if bought.value.cash < 0.0 || bought.value.quantity < 0.0 {
      return Thrown(Negative);
    }
    return bought;
  }

  lemma ReadyShape(bars: seq<seq<Bar>>, c: Scenario, k: nat)
    requires Ready(bars, c) && k < |c.signals|
    ensures Indexed(bars) && |c.selected| == |c.signals| && c.selected[k] < MARKETS && 1 <= c.fillHour <= 2
  {}

  lemma NothingHeld(s: State, selected: nat, desired: real)
    ensures s.market.None? ==> Excess(s, selected, desired) == 0.0
  {}
}
