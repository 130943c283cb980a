/** The replay and the hourly ledger agree, and a rebalance never holds two
    markets nor trades one market both ways. */
module LowVolTheorems {
  import opened Exact
  import opened Outcomes
  import opened Drawdown
  import opened LowVol
  import opened LowVolLedger

  function Single(market: Option<nat>, quantity: real): seq<real>
    requires market.Some? ==> market.value < MARKETS
  {
    if market.None? then NoHoldings else NoHoldings[market.value := quantity]
  }

  /** At most one market is held, and none with nothing in it. */
  ghost predicate Settled(s: State)
  {
    if s.market.None? then s.quantity == 0.0 else s.quantity > 0.0 && s.market.value < MARKETS
  }

  /** Posting every fill so far is accepted and leaves the replay's own account. */
  ghost predicate Agrees(s: State)
    requires Settled(s)
  {
    Posted(s.fills) == Done(Book(s.cash, Single(s.market, s.quantity), s.fees, s.turnover))
  }

  // ----- signs

  lemma TargetNonnegative(s: State, mark: real)
    requires Settled(s) && s.cash >= 0.0 && mark > 0.0
    ensures Target(s, mark) >= 0.0
  {
    if s.market.Some? {
      MulNonneg(s.quantity, mark);
    }
    MulNonneg(s.cash + (if s.market.Some? then Worth(s.quantity, mark) else 0.0), SLEEVE);
  }

  lemma UnitsNonnegative(amount: real, price: real)
    requires amount >= 0.0 && price > 0.0
    ensures Units(amount, price) >= 0.0
  {
    QuotientAtLeast(amount, price, 0.0);
  }

  // ----- one settlement each

  lemma PostedAppend(fills: seq<Fill>, f: Fill)
    requires Posted(fills).Done?
    ensures Posted(fills + [f]) == Post(Posted(fills).value, f)
  {
    hide Post;
    assert (fills + [f])[..|fills|] == fills;
  }

  /** A sale of part or all of the held market, settled with nonnegative cash, is posted the same way. */
  lemma SaleAgrees(s: State, time: int, quantity: real, price: real, rate: real)
    requires Settled(s) && Agrees(s) && s.market.Some? && 0.0 < quantity <= s.quantity && price > 0.0 && rate >= 0.0
    requires Sold(s, time, quantity, price, rate).cash >= 0.0
    ensures var u := Sold(s, time, quantity, price, rate); Settled(u) && Agrees(u)
  {
    TradeSigns(quantity, price, rate);
    hide Worth, FeeOn;
    var u := Sold(s, time, quantity, price, rate);
    PostedAppend(s.fills, u.fills[|s.fills|]);
    assert Single(s.market, s.quantity)[s.market.value := s.quantity - quantity] == Single(u.market, u.quantity);
  }

  lemma PurchaseAgrees(s: State, time: int, selected: nat, quantity: real, price: real, rate: real)
    requires Settled(s) && Agrees(s) && (s.market.None? || s.market == Some(selected)) && selected < MARKETS
    requires quantity > 0.0 && price > 0.0 && rate >= 0.0
    requires Bought(s, time, selected, quantity, price, rate).cash >= 0.0
    ensures var u := Bought(s, time, selected, quantity, price, rate); Settled(u) && Agrees(u)
  {
    TradeSigns(quantity, price, rate);
    hide Worth, FeeOn;
    var u := Bought(s, time, selected, quantity, price, rate);
    PostedAppend(s.fills, u.fills[|s.fills|]);
    var before := Single(s.market, s.quantity);
    assert before[selected] == s.quantity;
    assert before[selected := s.quantity + quantity] == Single(u.market, u.quantity);
  }

  // ----- one rebalance

  /** What one rebalance did to the list of fills: nothing, one side only, or a
      sale of everything held followed by a purchase of another market. */
  ghost predicate OneWay(s: State, u: State, time: int, selected: nat)
  {
    && s.fills <= u.fills && |u.fills| <= |s.fills| + 2
    && (forall i :: |s.fills| <= i < |u.fills| ==> u.fills[i].time == time)
    && (|u.fills| == |s.fills| + 2 ==>
          var sale, purchase := u.fills[|s.fills|], u.fills[|s.fills| + 1];
          && s.market.Some? && s.market != Some(selected)
          && sale.side == Sell && Some(sale.market) == s.market && sale.quantity == s.quantity
          && purchase.side == Buy && purchase.market == selected)
  }

  lemma RebalanceSettles(s: State, bars: seq<seq<Bar>>, c: Scenario, k: nat)
    requires Ready(bars, c) && k < |c.signals| && Settled(s) && Agrees(s) && s.cash >= 0.0
    requires Rebalance(s, bars, c, k).Done?
    ensures var u := Rebalance(s, bars, c, k).value;
      && Settled(u) && Agrees(u) && u.cash >= 0.0
      && OneWay(s, u, c.signals[k] + c.fillHour, c.selected[k])
  {
    hide Ready, Agrees, BarAt, Adverse, SellPrice, BuyPrice, Gross, Units, Target, Worth, FeeOn, SellStep, BuyStep;
    SignalWithin(bars, c, k);
    ReadyShape(bars, c, k);
    var selected, time := c.selected[k], c.signals[k] + c.fillHour;
    PricesGood(bars, c, selected, c.signals[k] - 1);
    PricesGood(bars, c, selected, time);
    var held := if s.market.Some? then s.market.value else selected;
    PricesGood(bars, c, held, c.signals[k] - 1);
    PricesGood(bars, c, held, time);
    var target := Target(s, BarAt(bars, held, c.signals[k] - 1).close);
    TargetNonnegative(s, BarAt(bars, held, c.signals[k] - 1).close);
    var mark := BarAt(bars, selected, c.signals[k] - 1).close;
    UnitsNonnegative(target, mark);
    var desired := Units(target, mark);
    var decided := s.(decisions := s.decisions + [Decision(c.signals[k], selected, target)]);
    assert Agrees(decided) by { DecidedAgrees(s, decided.decisions); }
    var heldOpen, open := BarAt(bars, held, time).open, BarAt(bars, selected, time).open;
    RatesGood(bars, c);
    var u := Rebalance(s, bars, c, k).value;
    var sold := SellStep(decided, c, time, heldOpen, Excess(s, selected, desired)).value;
    StepsSettle(decided, c, time, selected, heldOpen, open, desired, sold, u);
  }

  /** The whole units of a quarter of the equity, both marked at the close before the signal. */
  function Desired(s: State, bars: seq<seq<Bar>>, c: Scenario, k: nat): real
    requires Ready(bars, c) && k < |c.signals| && (s.market.Some? ==> s.market.value < MARKETS)
  {
    SignalWithin(bars, c, k);
    var t, selected := c.signals[k], c.selected[k];
    PricesGood(bars, c, selected, t - 1);
    Units(Target(s, BarAt(bars, if s.market.Some? then s.market.value else selected, t - 1).close), BarAt(bars, selected, t - 1).close)
  }

  /** A rebalance ends with exactly the desired units of the selected market,
      and of no other; less only when the cash left affords no more units. */
  lemma TargetReached(s: State, bars: seq<seq<Bar>>, c: Scenario, k: nat)
    requires Ready(bars, c) && k < |c.signals| && Settled(s) && s.cash >= 0.0 && Rebalance(s, bars, c, k).Done?
    ensures var u, desired := Rebalance(s, bars, c, k).value, Desired(s, bars, c, k);
      && desired >= 0.0 && 0.0 <= u.quantity <= desired
      && u.market == (if desired == 0.0 then None else Some(c.selected[k]))
      && (u.quantity < desired ==>
            && Within(bars, c.signals[k] + c.fillHour) && |u.fills| > 0
            && var purchase := u.fills[|u.fills| - 1];
            && purchase.side == Buy && Gross(purchase.price, c.cost.fee) > 0.0
            && purchase.quantity == Units(u.cash + Worth(purchase.quantity, purchase.price) + purchase.fee, Gross(purchase.price, c.cost.fee)))
  {
    hide Ready, BarAt, Adverse, SellPrice, BuyPrice, Gross, Units, Target, Worth, FeeOn;
    SignalWithin(bars, c, k);
    ReadyShape(bars, c, k);
    var selected, t := c.selected[k], c.signals[k];
    var held := if s.market.Some? then s.market.value else selected;
    PricesGood(bars, c, selected, t - 1);
    PricesGood(bars, c, held, t - 1);
    PricesGood(bars, c, selected, t + c.fillHour);
    TargetNonnegative(s, BarAt(bars, held, t - 1).close);
    UnitsNonnegative(Target(s, BarAt(bars, held, t - 1).close), BarAt(bars, selected, t - 1).close);
  }

  lemma DecidedAgrees(s: State, decisions: seq<Decision>)
    requires Settled(s) && Agrees(s)
    ensures Agrees(s.(decisions := decisions))
  {}

  lemma RatesGood(bars: seq<seq<Bar>>, c: Scenario)
    requires Ready(bars, c)
    ensures c.cost.fee >= 0.0
  {}

  lemma StepsSettle(s: State, c: Scenario, time: int, selected: nat, heldOpen: real, open: real, desired: real, sold: State, u: State)
    requires Settled(s) && Agrees(s) && selected < MARKETS && c.cost.fee >= 0.0 && desired >= 0.0
    requires SellPrice(heldOpen, Adverse(c)) > 0.0 && BuyPrice(open, Adverse(c)) > 0.0 && Gross(BuyPrice(open, Adverse(c)), c.cost.fee) > 0.0
    requires s.market.None? ==> Excess(s, selected, desired) == 0.0
    requires SellStep(s, c, time, heldOpen, Excess(s, selected, desired)) == Done(sold)
    requires BuyStep(sold, c, time, selected, open, Shortfall(sold, selected, desired)) == Done(u)
    requires u.cash >= 0.0
    ensures Settled(u) && Agrees(u) && OneWay(s, u, time, selected)
  {
    hide Agrees, Adverse, SellPrice, BuyPrice, Gross, Units;
    var excess, shortfall := Excess(s, selected, desired), Shortfall(sold, selected, desired);
    if shortfall != 0.0 {
      var price := BuyPrice(open, Adverse(c));
      var quantity := Min(shortfall, Units(sold.cash, Gross(price, c.cost.fee)));
      TradeSigns(quantity, price, c.cost.fee);
      hide Worth, FeeOn;
      assert sold.cash >= 0.0;
      if excess != 0.0 {
        SaleAgrees(s, time, excess, SellPrice(heldOpen, Adverse(c)), c.cost.fee);
      }
      PurchaseAgrees(sold, time, selected, quantity, price, c.cost.fee);
    } else if excess != 0.0 {
      hide Worth, FeeOn;
      SaleAgrees(s, time, excess, SellPrice(heldOpen, Adverse(c)), c.cost.fee);
    }
  }

  // ----- the whole replay

  /** Fills are in time order, after the first signal and at most two hours after the last. */
  ghost predicate Timely(fills: seq<Fill>, first: int, last: int)
  {
    && (forall i :: 0 <= i < |fills| ==> first < fills[i].time <= last)
    && forall i, j :: 0 <= i < j < |fills| ==> fills[i].time <= fills[j].time
  }

  /** After every signal of a completed replay: one market at most, and an account every posting agrees with. */
  lemma {:induction false} ReplaySettles(bars: seq<seq<Bar>>, c: Scenario, n: nat)
    requires Ready(bars, c) && n <= |c.signals| && Replay(bars, c, INITIAL_CASH, n).Done?
    ensures var s := Replay(bars, c, INITIAL_CASH, n).value;
      && Settled(s) && Agrees(s) && s.cash >= 0.0
      && Timely(s.fills, c.signals[0], if n == 0 then c.signals[0] else c.signals[n - 1] + 2)
  {
    hide Rebalance, Agrees, Settled;
    if n == 0 {
      InitialSettled();
    } else {
      ReplaySettles(bars, c, n - 1);
      var s := Replay(bars, c, INITIAL_CASH, n - 1).value;
      RebalanceSettles(s, bars, c, n - 1);
      hide Ready, Indexed, Replay;
      SignalsApart(bars, c, n - 1);
      TimelyAppend(s, Rebalance(s, bars, c, n - 1).value, c, n - 1);
    }
  }

  lemma InitialSettled()
    ensures Settled(Initial(INITIAL_CASH)) && Agrees(Initial(INITIAL_CASH))
  {}

  lemma SignalsApart(bars: seq<seq<Bar>>, c: Scenario, k: nat)
    requires Ready(bars, c) && k < |c.signals|
    ensures c.signals[0] <= c.signals[k] && 1 <= c.fillHour <= 2
    ensures k > 0 ==> c.signals[k - 1] + 2 < c.signals[k]
  {
    SignalsGrow(c, 0, k);
  }

  lemma TimelyAppend(s: State, u: State, c: Scenario, k: nat)
    requires k < |c.signals| && 1 <= c.fillHour <= 2 && k < |c.selected|
    requires OneWay(s, u, c.signals[k] + c.fillHour, c.selected[k])
    requires c.signals[0] <= c.signals[k] && (k > 0 ==> c.signals[k - 1] + 2 < c.signals[k])
    requires Timely(s.fills, c.signals[0], if k == 0 then c.signals[0] else c.signals[k - 1] + 2)
    ensures Timely(u.fills, c.signals[0], c.signals[k] + 2)
  {
    forall i | 0 <= i < |u.fills|
      ensures i < |s.fills| ==> u.fills[i] == s.fills[i]
    {}
  }

  // ----- the hourly walk posts exactly the fills

  lemma {:induction false} PostedPrefix(fills: seq<Fill>, c: nat)
    requires Posted(fills).Done? && c <= |fills|
    ensures Posted(fills[..c]).Done?
  {
    hide Post;
    if c == |fills| {
      assert fills[..c] == fills;
    } else {
      assert fills[..|fills| - 1][..c] == fills[..c];
      PostedPrefix(fills[..|fills| - 1], c);
    }
  }

  lemma {:induction false} ConsumesHour(fills: seq<Fill>, cursor: nat, b: Book, t: int)
    requires cursor <= |fills| && Posted(fills).Done? && |b.holdings| == MARKETS && Posted(fills[..cursor]) == Done(b)
    requires forall i :: cursor <= i < |fills| ==> t <= fills[i].time
    requires forall i, j :: 0 <= i < j < |fills| ==> fills[i].time <= fills[j].time
    ensures var r := Consume(fills, cursor, b, t);
      && r.Done? && Posted(fills[..r.value.0]) == Done(r.value.1)
      && (forall i :: cursor <= i < r.value.0 ==> fills[i].time == t)
      && (forall i :: r.value.0 <= i < |fills| ==> t < fills[i].time)
    decreases |fills| - cursor
  {
    hide Post, Posted;
    if cursor < |fills| && fills[cursor].time == t {
      assert fills[..cursor + 1] == fills[..cursor] + [fills[cursor]];
      PostedAppend(fills[..cursor], fills[cursor]);
      PostedPrefix(fills, cursor + 1);
      ConsumesHour(fills, cursor + 1, Post(b, fills[cursor]).value, t);
    }
  }

  /** After `n` hours the cursor stands before the first fill still to come, and the book is the posting of those before it. */
  lemma {:induction false} WalkPosts(bars: seq<seq<Bar>>, fills: seq<Fill>, first: int, n: nat, months: set<int>)
    requires Indexed(bars) && Within(bars, first - 1) && Within(bars, first - 1 + n) && Posted(fills).Done?
    requires forall i :: 0 <= i < |fills| ==> first <= fills[i].time
    requires forall i, j :: 0 <= i < j < |fills| ==> fills[i].time <= fills[j].time
    ensures var r := Hours(bars, fills, first, n, months);
      && r.Done? && r.value.cursor <= |fills| && Posted(fills[..r.value.cursor]) == Done(r.value.book)
      && (forall i :: 0 <= i < r.value.cursor ==> fills[i].time < first + n)
      && (forall i :: r.value.cursor <= i < |fills| ==> first + n <= fills[i].time)
  {
    hide Indexed, Posted, Consume, Marked, Closes;
    if n == 0 {
      assert fills[..0] == [];
      NothingPosted();
    } else {
      WalkPosts(bars, fills, first, n - 1, months);
      var w := Hours(bars, fills, first, n - 1, months).value;
      ConsumesHour(fills, w.cursor, w.book, first + n - 1);
    }
  }

  lemma NothingPosted()
    ensures Posted([]) == Done(Opening())
  {}

  // ----- the terminal mark

  lemma {:induction false} DotUpdate(holdings: seq<real>, prices: seq<real>, m: nat, x: real)
    requires |holdings| == |prices| && m < |holdings|
    ensures Dot(holdings[m := x], prices) == Dot(holdings, prices) - Worth(holdings[m], prices[m]) + Worth(x, prices[m])
  {
    hide Worth;
    var n := |holdings| - 1;
    if m == n {
      assert holdings[m := x][..n] == holdings[..n];
    } else {
      assert holdings[m := x][..n] == holdings[..n][m := x];
      DotUpdate(holdings[..n], prices[..n], m, x);
    }
  }

  lemma {:induction false} DotZero(holdings: seq<real>, prices: seq<real>)
    requires |holdings| == |prices| && forall m :: 0 <= m < |holdings| ==> holdings[m] == 0.0
    ensures Dot(holdings, prices) == 0.0
  {
    if holdings != [] {
      DotZero(holdings[..|holdings| - 1], prices[..|prices| - 1]);
    }
  }

  lemma SingleMark(s: State, bars: seq<seq<Bar>>, terminal: int)
    requires Settled(s) && Indexed(bars) && Within(bars, terminal + 1)
    ensures Marked(Book(s.cash, Single(s.market, s.quantity), s.fees, s.turnover), Opens(bars, terminal + 1)) == TerminalEquity(s, bars, terminal)
  {
    hide Indexed, BarAt;
    var prices := Opens(bars, terminal + 1);
    DotZero(NoHoldings, prices);
    if s.market.Some? {
      DotUpdate(NoHoldings, prices, s.market.value, s.quantity);
    }
  }

  /** For every completed replay with the default cash, hourly measurement of its
      fills never raises and returns the same cash, fees, turnover and terminal equity. */
  lemma ReplayMeasured(bars: seq<seq<Bar>>, c: Scenario, months: set<int>)
    requires Ready(bars, c) && Replay(bars, c, INITIAL_CASH, |c.signals|).Done?
    ensures Window(bars, c.signals[0], c.terminal)
    ensures var s := Replay(bars, c, INITIAL_CASH, |c.signals|).value;
      var r := MeasuresOf(bars, s.fills, c.signals[0], c.terminal, months);
      && r.Done? && r.value.cash == s.cash && r.value.fees == s.fees && r.value.turnover == s.turnover
      && r.value.terminalEquity == TerminalEquity(s, bars, c.terminal)
  {
    hide Replay, Rebalance, Hours, Posted, Marked, Opens, WorstFall, Dot;
    ReplaySettles(bars, c, |c.signals|);
    var s := Replay(bars, c, INITIAL_CASH, |c.signals|).value;
    SignalWithin(bars, c, 0);
    SignalWithin(bars, c, |c.signals| - 1);
    var n := c.terminal - c.signals[0] + 1;
    WalkPosts(bars, s.fills, c.signals[0], n, months);
    var w := Hours(bars, s.fills, c.signals[0], n, months).value;
    assert forall i :: 0 <= i < |s.fills| ==> s.fills[i].time < c.terminal;
    NoneLeft(s.fills, w.cursor, c.terminal + 1);
    assert s.fills[..|s.fills|] == s.fills;
    SingleMark(s, bars, c.terminal);
  }

  /** The time of the next fill, or a bound when there is none. */
  function NextTime(fills: seq<Fill>, cursor: nat, bound: int): int
  {
    if cursor < |fills| then fills[cursor].time else bound
  }

  lemma NoneLeft(fills: seq<Fill>, cursor: nat, bound: int)
    requires cursor <= |fills| && forall i :: 0 <= i < |fills| ==> fills[i].time < bound
    requires forall i :: cursor <= i < |fills| ==> bound <= fills[i].time
    ensures cursor == |fills|
  {
    assert NextTime(fills, cursor, bound) == bound;
  }

  /** At most one market is ever held, and each rebalance of the market already
      held either only sells or only buys. */
  lemma OneMarketOneWay(bars: seq<seq<Bar>>, c: Scenario, k: nat)
    requires Ready(bars, c) && k < |c.signals| && Replay(bars, c, INITIAL_CASH, k + 1).Done?
    ensures Replay(bars, c, INITIAL_CASH, k).Done?
    ensures var s, u := Replay(bars, c, INITIAL_CASH, k).value, Replay(bars, c, INITIAL_CASH, k + 1).value;
      && Settled(s) && Settled(u)
      && (s.market == Some(c.selected[k]) ==> |u.fills| <= |s.fills| + 1)
      && OneWay(s, u, c.signals[k] + c.fillHour, c.selected[k])
      && Posted(u.fills).Done? && forall m, j :: 0 <= m < j < MARKETS ==>
           Posted(u.fills).value.holdings[m] == 0.0 || Posted(u.fills).value.holdings[j] == 0.0
  {
    hide Ready, Rebalance, Posted;
    ReplaySettles(bars, c, k);
    ReplaySettles(bars, c, k + 1);
    RebalanceSettles(Replay(bars, c, INITIAL_CASH, k).value, bars, c, k);
  }

  /** The study's own cross-check of policy and ledger: it never fails. */
  method CrossCheck(bars: seq<seq<Bar>>, c: Scenario, months: set<int>) returns (r: Outcome<bool, Fault>)
    requires Spaced(c)
    ensures r.Done? ==> r.value
    ensures Ready(bars, c) && Replay(bars, c, INITIAL_CASH, |c.signals|).Done? ==> r.Done?
  {
    hide Ready, Replay, MeasuresOf, TerminalEquity;
    var replayed := RunReplay(bars, c, INITIAL_CASH);
    if replayed.Thrown? {
      return Thrown(replayed.fault);
    }
    var (s, equity) := replayed.value;
    ReplayMeasured(bars, c, months);
    var measured := Measure(bars, s.fills, c.signals[0], c.terminal, months);
    return match measured
      case Thrown(fault) => Thrown(fault)
      case Done(m) => Done((m.cash, m.terminalEquity, m.fees, m.turnover) == (s.cash, equity, s.fees, s.turnover));
  }
}
