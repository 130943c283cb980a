/** What every candidate screen keeps, on any bars and under any costs. */
module CandidateTheorems {
  import opened Exact
  import opened Outcomes
  import opened Candidate

  // ----- the account

  /** Something is held exactly while a trade is open, and cash is the opening
      cash plus closed results less the cost of the open trade. */
  ghost predicate Balanced(s: State)
  {
    && s.quantity >= 0.0 && (s.quantity > 0.0 <==> s.position.Some?)
    && s.cash == INITIAL_CASH + Sum(s.results) - (if s.position.Some? then s.position.value.cost else 0.0)
  }

  // ----- the order of trading

  function Turn(k: nat): Side { if k % 2 == 0 then Buy else Sell }

  /** Fills alternate and come in bar order; none buys on the last bar or after
      the pause, and a reversal trade is sold within 48 bars of its fill. */
  ghost predicate LogOk(log: seq<Trade>, i: nat, last: nat, reversal: bool, pausedAt: Option<nat>)
  {
    && (forall k: nat :: k < |log| ==> log[k].side == Turn(k) && log[k].index < i)
    && (forall j: nat, k: nat :: j < k < |log| ==> log[j].index < log[k].index)
    && (forall k: nat :: k < |log| && log[k].side == Buy ==> log[k].index < last && (pausedAt.Some? ==> log[k].index <= pausedAt.value))
    && (reversal ==> forall j: nat, k: nat :: j + 1 == k < |log| && log[k].side == Sell ==> log[k].index <= log[j].index + REVERSAL_HOURS)
  }

  ghost predicate LogFits(s: State)
  {
    && (|s.log| % 2 == 1 <==> s.position.Some?)
    && (s.position.Some? ==> s.log != [] && s.log[|s.log| - 1].index == s.position.value.index)
  }

  predicate IsReversal(c: Screen) { c.family == Reversal && !c.benchmark }

  /** What is pending before bar `i`, and when an open reversal trade is due. */
  ghost predicate PendingOk(s: State, c: Screen, i: nat, last: nat)
  {
    && (s.pending == Some(Sell) ==> s.position.Some?)
    && (s.pending == Some(Buy) ==> s.position.None? && s.pausedAt.None? && s.entrySignal.Some? && i < last)
    && (c.benchmark ==> s.pending.None? && (i <= WARMUP ==> s.position.None?) && s.pausedAt.None?)
    && (!c.benchmark && s.position.Some? ==> s.entrySignal.Some?)
    && (IsReversal(c) && s.position.Some? ==>
          && i <= s.position.value.index + REVERSAL_HOURS
          && (i == s.position.value.index + REVERSAL_HOURS ==> s.pending == Some(Sell)))
    && (s.pausedAt.Some? ==> s.pausedAt.value < i)
  }

  ghost predicate Kept(s: State, c: Screen, i: nat, last: nat)
  {
    Balanced(s) && LogFits(s) && LogOk(s.log, i, last, IsReversal(c), s.pausedAt) && PendingOk(s, c, i, last)
  }

  // ----- one fill

  lemma FillFacts(cash: real, quantity: real, side: Side, opening: real, allocation: real, c: Cost)
    requires Fill(cash, quantity, side, opening, allocation, c).Done?
    ensures var f := Fill(cash, quantity, side, opening, allocation, c).value;
      if side == Buy then f.quantity > quantity && f.cash == cash - (f.notional + f.fee) && f.notional + f.fee <= cash
      else f.quantity == 0.0 && f.cash == cash + (f.notional - f.fee)
  {
    hide PriceOf, Gross, Bought, Worth, FeeOn;
  }

  lemma LogAppend(log: seq<Trade>, t: Trade, i: nat, last: nat, reversal: bool, pausedAt: Option<nat>)
    requires LogOk(log, i, last, reversal, pausedAt) && t.index == i && t.side == Turn(|log|)
    requires t.side == Buy ==> i < last && pausedAt.None?
    requires reversal && t.side == Sell && log != [] ==> i <= log[|log| - 1].index + REVERSAL_HOURS
    ensures LogOk(log + [t], i + 1, last, reversal, pausedAt)
  {
    var more := log + [t];
    forall k: nat | k < |log|
      ensures more[k] == log[k]
    {}
  }

  /** The state between the opening and the close of bar `i`. */
  ghost predicate Open(s: State, c: Screen, i: nat, last: nat)
  {
    && Balanced(s) && LogFits(s) && LogOk(s.log, i + 1, last, IsReversal(c), s.pausedAt)
    && s.pending.None? && (s.pausedAt.Some? ==> s.pausedAt.value < i)
    && (c.benchmark ==> s.pausedAt.None?)
    && (!c.benchmark && s.position.Some? ==> s.entrySignal.Some?)
    && (IsReversal(c) && s.position.Some? ==> i < s.position.value.index + REVERSAL_HOURS)
    && (i == last ==> s.quantity == 0.0)
  }

  lemma OpenKeeps(s: State, bars: seq<Bar>, c: Screen, i: nat)
    requires WARMUP <= i < |bars| && |bars| >= WARMUP + 3 && Kept(s, c, i, |bars| - 1)
    requires OpenBar(s, bars, c, i).Done?
    ensures Open(OpenBar(s, bars, c, i).value, c, i, |bars| - 1)
  {
    hide Fill, Equity, Share, LogOk, Sum;
    var last := |bars| - 1;
    var pending := PendingAt(s, bars, c, i);
    if pending.Some? {
      var side := pending.value;
      var allocation := if side == Buy then Share(Equity(s, bars[i].open), c.allocation) else 0.0;
      FillFacts(s.cash, s.quantity, side, bars[i].open, allocation, c.cost);
      var f := Fill(s.cash, s.quantity, side, bars[i].open, allocation, c.cost).value;
      LogAppend(s.log, Trade(i, side, f.notional, f.fee, f.cash, f.quantity), i, last, IsReversal(c), s.pausedAt);
      if side == Sell {
        SumAppend(s.results, f.notional - f.fee - s.position.value.cost);
      }
    } else {
      LogLater(s.log, i, last, IsReversal(c), s.pausedAt);
    }
  }

  lemma LogLater(log: seq<Trade>, i: nat, last: nat, reversal: bool, pausedAt: Option<nat>)
    requires LogOk(log, i, last, reversal, pausedAt)
    ensures LogOk(log, i + 1, last, reversal, pausedAt)
  {}

  /** Pausing at bar `i` only concerns buys still to come. */
  lemma LogPaused(log: seq<Trade>, i: nat, last: nat, reversal: bool)
    requires LogOk(log, i + 1, last, reversal, None)
    ensures LogOk(log, i + 1, last, reversal, Some(i))
  {}

  lemma CloseKeeps(s: State, bars: seq<Bar>, c: Screen, i: nat)
    requires WARMUP <= i < |bars| && Open(s, c, i, |bars| - 1) && (c.family != Unregistered || c.benchmark)
    ensures var r := CloseBar(s, bars, c, i);
      r.Done? && (if i + 1 < |bars| then Kept(r.value, c, i + 1, |bars| - 1) else r.value == s)
  {
    hide LogOk, Sum, Equity, Fraction, Below, Enters;
    if s.pausedAt.None? {
      LogPaused(s.log, i, |bars| - 1, IsReversal(c));
    }
  }

  /** Before every bar of every screen. */
  lemma {:induction false} ReplayKeeps(bars: seq<Bar>, c: Screen, n: nat)
    requires Ready(bars, c) && WARMUP + n <= |bars| && Replay(bars, c, n).Done?
    ensures var s := Replay(bars, c, n).value;
      if WARMUP + n < |bars| then Kept(s, c, WARMUP + n, |bars| - 1)
      else s.quantity == 0.0 && Open(s, c, |bars| - 1, |bars| - 1)
  {
    hide OpenBar, CloseBar, Kept, Open;
    if n == 0 {
      InitialKept(c, |bars| - 1);
    } else {
      ReplayKeeps(bars, c, n - 1);
      var s, i := Replay(bars, c, n - 1).value, WARMUP + n - 1;
      OpenKeeps(s, bars, c, i);
      var o := OpenBar(s, bars, c, i).value;
      CloseKeeps(o, bars, c, i);
      if i + 1 == |bars| {
        OpenFlat(o, c, i, |bars| - 1);
      }
    }
  }

  lemma OpenFlat(s: State, c: Screen, i: nat, last: nat)
    requires Open(s, c, i, last)
    ensures i == last ==> s.quantity == 0.0
  {}

  lemma InitialKept(c: Screen, last: nat)
    ensures Kept(Initial, c, WARMUP, last)
  {}

  // ----- the completed screen

  /** Every screen that reaches its last bar ends flat: the liquidation check
      never fails, and the trade results sum to the whole change in cash. */
  lemma EndsFlat(bars: seq<Bar>, c: Screen)
    requires Ready(bars, c)
    ensures Completed(bars, c) == Replay(bars, c, |bars| - WARMUP)
    ensures Completed(bars, c).Done? ==>
      var s := Completed(bars, c).value;
      s.quantity == 0.0 && s.position.None? && Sum(s.results) == s.cash - INITIAL_CASH
      && ReportOf(s).excludingLargest == Sum(s.results) - Largest(s.results)
  {
    hide Sum, Largest, LogOk;
    if Replay(bars, c, |bars| - WARMUP).Done? {
      ReplayKeeps(bars, c, |bars| - WARMUP);
    }
  }

  /** The fills of a completed screen: alternating, no buy on the last bar, none
      after the pause, and reversal trades sold within 48 bars. */
  lemma FillsInOrder(bars: seq<Bar>, c: Screen)
    requires Ready(bars, c) && Completed(bars, c).Done?
    ensures var s := Completed(bars, c).value;
      LogOk(s.log, |bars|, |bars| - 1, IsReversal(c), s.pausedAt) && |s.log| % 2 == 0
  {
    hide LogOk, Replay;
    ReplayKeeps(bars, c, |bars| - WARMUP);
  }

  // ----- why each trade happened

  /** Why an open trade filled at bar `bought` is sold at the open of bar `i`:
      the last bar, a 20% drawdown at the close before, or the family's exit there. */
  ghost predicate SellReason(bars: seq<Bar>, c: Screen, bought: nat, i: nat, values: seq<real>)
  {
    || i + 1 == |bars|
    || (WARMUP < i < |bars| && WARMUP < bought && 0 < i - WARMUP <= |values|
        && (|| Below(values[..i - WARMUP]) >= PAUSE
            || (c.family == Momentum && bars[i - 1].close <= bars[i - 1 - WARMUP].close)
            || (c.family != Momentum && bought < |bars| && (bars[i - 1].close >= bars[bought - 1].close || i - bought >= REVERSAL_HOURS))))
  }

  ghost predicate BuyReason(bars: seq<Bar>, c: Screen, i: nat)
  {
    if c.benchmark then i == WARMUP
    else
      && WARMUP < i < |bars|
      && (c.family == Momentum ==> bars[i - 1].close > bars[i - 1 - 720].close)
      && (c.family != Momentum ==> bars[i - 1].close <= bars[i - 1 - 24].close * 0.95)
  }

  ghost predicate Explained(log: seq<Trade>, bars: seq<Bar>, c: Screen, values: seq<real>)
  {
    && (forall k: nat :: k < |log| && log[k].side == Buy ==> BuyReason(bars, c, log[k].index))
    && (forall j: nat, k: nat :: j + 1 == k < |log| && log[k].side == Sell ==> SellReason(bars, c, log[j].index, log[k].index, values))
  }

  /** What is pending before bar `i` has its reason at the close before. */
  ghost predicate PendingExplained(s: State, bars: seq<Bar>, c: Screen, i: nat)
  {
    && |s.values| == i - WARMUP
    && Explained(s.log, bars, c, s.values)
    && (s.position.Some? && !c.benchmark ==> EntryKnown(s, bars))
    && (s.pending == Some(Buy) ==> BuyReason(bars, c, i) && 0 < i <= |bars| && s.entrySignal == Some(bars[i - 1].close))
    && (s.pending == Some(Sell) && s.position.Some? ==> SellReason(bars, c, s.position.value.index, i, s.values))
  }

  ghost predicate EntryKnown(s: State, bars: seq<Bar>)
    requires s.position.Some?
  {
    WARMUP < s.position.value.index < |bars| && s.entrySignal == Some(bars[s.position.value.index - 1].close)
  }

  lemma ExplainedAppend(log: seq<Trade>, t: Trade, bars: seq<Bar>, c: Screen, values: seq<real>)
    requires Explained(log, bars, c, values)
    requires t.side == Buy ==> BuyReason(bars, c, t.index)
    requires t.side == Sell && log != [] ==> SellReason(bars, c, log[|log| - 1].index, t.index, values)
    ensures Explained(log + [t], bars, c, values)
  {
    hide BuyReason, SellReason;
    var more := log + [t];
    forall k: nat | k < |log|
      ensures more[k] == log[k]
    {}
  }

  /** Later marks do not change the reasons of earlier sales. */
  lemma ExplainedLater(log: seq<Trade>, bars: seq<Bar>, c: Screen, values: seq<real>, value: real)
    requires Explained(log, bars, c, values)
    ensures Explained(log, bars, c, values + [value])
  {
    forall j: nat, k: nat | j + 1 == k < |log| && log[k].side == Sell
      ensures SellReason(bars, c, log[j].index, log[k].index, values + [value])
    {
      assert SellReason(bars, c, log[j].index, log[k].index, values);
      ReasonLater(bars, c, log[j].index, log[k].index, values, value);
    }
  }

  lemma ReasonLater(bars: seq<Bar>, c: Screen, bought: nat, i: nat, values: seq<real>, value: real)
    requires SellReason(bars, c, bought, i, values)
    ensures SellReason(bars, c, bought, i, values + [value])
  {
    hide Below;
    if 0 < i - WARMUP <= |values| {
      assert (values + [value])[..i - WARMUP] == values[..i - WARMUP];
    }
  }

  ghost predicate OpenExplained(s: State, bars: seq<Bar>, c: Screen, i: nat)
  {
    && |s.values| == i - WARMUP && Explained(s.log, bars, c, s.values)
    && (s.position.Some? && !c.benchmark ==> EntryKnown(s, bars))
  }

  lemma OpenExplains(s: State, bars: seq<Bar>, c: Screen, i: nat)
    requires WARMUP <= i < |bars| && |bars| >= WARMUP + 3 && Kept(s, c, i, |bars| - 1)
    requires PendingExplained(s, bars, c, i) && OpenBar(s, bars, c, i).Done?
    ensures OpenExplained(OpenBar(s, bars, c, i).value, bars, c, i)
  {
    hide Fill, Equity, Share, Enters, LogOk, Sum, Explained, Balanced, Below;
    var pending := PendingAt(s, bars, c, i);
    if pending.Some? {
      var side := pending.value;
      var f := Fill(s.cash, s.quantity, side, bars[i].open, if side == Buy then Share(Equity(s, bars[i].open), c.allocation) else 0.0, c.cost).value;
      BalancedHeld(s);
      ExplainedAppend(s.log, Trade(i, side, f.notional, f.fee, f.cash, f.quantity), bars, c, s.values);
    }
  }

  lemma BalancedHeld(s: State)
    requires Balanced(s)
    ensures s.quantity != 0.0 <==> s.position.Some?
  {}

  lemma CloseExplains(s: State, bars: seq<Bar>, c: Screen, i: nat)
    requires WARMUP <= i && i + 1 < |bars| && Open(s, c, i, |bars| - 1) && OpenExplained(s, bars, c, i)
    requires CloseBar(s, bars, c, i).Done?
    ensures PendingExplained(CloseBar(s, bars, c, i).value, bars, c, i + 1)
  {
    hide Equity, Fraction, LogOk, Sum, Explained, Below, Balanced;
    BalancedHeld(s);
    var equity := Equity(s, bars[i].close);
    var values := s.values + [equity];
    ExplainedLater(s.log, bars, c, s.values, equity);
    assert values[..i + 1 - WARMUP] == values;
  }

  lemma {:induction false} ReplayExplains(bars: seq<Bar>, c: Screen, n: nat)
    requires Ready(bars, c) && WARMUP + n <= |bars| && Replay(bars, c, n).Done?
    ensures var s := Replay(bars, c, n).value; Explained(s.log, bars, c, s.values)
    ensures WARMUP + n < |bars| ==> PendingExplained(Replay(bars, c, n).value, bars, c, WARMUP + n)
  {
    hide OpenBar, CloseBar, Kept, Open, Explained;
    if n == 0 {
      NothingLogged(bars, c);
    } else {
      ReplayExplains(bars, c, n - 1);
      ReplayKeeps(bars, c, n - 1);
      var s, i := Replay(bars, c, n - 1).value, WARMUP + n - 1;
      OpenKeeps(s, bars, c, i);
      OpenExplains(s, bars, c, i);
      var o := OpenBar(s, bars, c, i).value;
      if i + 1 < |bars| {
        CloseExplains(o, bars, c, i);
      } else {
        LastClose(o, bars, c, i);
      }
    }
  }

  lemma NothingLogged(bars: seq<Bar>, c: Screen)
    ensures Explained([], bars, c, [])
  {}

  lemma LastClose(s: State, bars: seq<Bar>, c: Screen, i: nat)
    requires WARMUP <= i && i + 1 == |bars|
    ensures CloseBar(s, bars, c, i) == Done(s)
  {}

  /** Every trade of a completed screen has its reason at the close before it:
      a buy the family's entry, a sale the pause, the family's exit, or the last bar. */
  lemma TradesExplained(bars: seq<Bar>, c: Screen)
    requires Ready(bars, c) && Completed(bars, c).Done?
    ensures var s := Completed(bars, c).value; Explained(s.log, bars, c, s.values)
  {
    hide Replay, Explained;
    ReplayExplains(bars, c, |bars| - WARMUP);
  }

  // ----- with sensible costs

  predicate CostOk(c: Cost) { 0.0 <= c.fee <= 1.0 && 0.0 <= c.halfSpread + c.slippage < 1.0 }

  /** A quantity rounded down from an allocation within the cash is paid for, fee included. */
  lemma BuyWithinCash(cash: real, opening: real, allocation: real, c: Cost)
    requires CostOk(c) && opening > 0.0 && 0.0 <= allocation <= cash
    ensures var r := Fill(cash, 0.0, Buy, opening, allocation, c); r.Done? || r.fault == BelowUnit
    ensures var r := Fill(cash, 0.0, Buy, opening, allocation, c); r.Done? ==> r.value.cash >= 0.0
  {
    hide PriceOf, Gross, Bought, Worth, FeeOn;
    var price := PriceOf(Buy, opening, c);
    PricePositive(Buy, opening, c);
    GrossPositive(price, c.fee);
    BoughtWithin(allocation, Gross(price, c.fee));
    Affordable(allocation, Bought(allocation, Gross(price, c.fee)), price, c.fee);
  }

  lemma PricePositive(side: Side, opening: real, c: Cost)
    requires CostOk(c) && opening > 0.0
    ensures PriceOf(side, opening, c) > 0.0
  {
    MulPos(opening, if side == Buy then 1.0 + (c.halfSpread + c.slippage) else 1.0 - (c.halfSpread + c.slippage));
  }

  lemma BoughtWithin(allocation: real, gross: real)
    requires allocation >= 0.0 && gross > 0.0
    ensures 0.0 <= Bought(allocation, gross) <= allocation / gross
  {
    QuotientAtLeast(allocation, gross, 0.0);
    FloorWithin(allocation / gross);
  }

  lemma SaleProceeds(cash: real, quantity: real, opening: real, c: Cost)
    requires CostOk(c) && opening > 0.0 && quantity >= 0.0 && cash >= 0.0
    ensures var r := Fill(cash, quantity, Sell, opening, 0.0, c); r.Done? && r.value.cash >= 0.0
  {
    hide PriceOf, Worth, FeeOn;
    PricePositive(Sell, opening, c);
    FeeAtMostWorth(quantity, PriceOf(Sell, opening, c), c.fee);
  }

  lemma FeeAtMostWorth(quantity: real, price: real, rate: real)
    requires quantity >= 0.0 && price > 0.0 && 0.0 <= rate <= 1.0
    ensures FeeOn(quantity, price, rate) <= Worth(quantity, price)
  {
    MulNonneg(quantity, price);
    var worth := Worth(quantity, price);
    hide Worth;
    MulMono(rate, 1.0, worth);
    assert FeeOn(quantity, price, rate) == rate * worth;
  }

  lemma OpenSucceeds(s: State, bars: seq<Bar>, c: Screen, i: nat)
    requires Ready(bars, c) && WARMUP <= i < |bars| && Kept(s, c, i, |bars| - 1) && s.cash >= 0.0
    requires CostOk(c.cost) && forall k: nat :: k < |bars| ==> bars[k].open > 0.0
    ensures var r := OpenBar(s, bars, c, i); if r.Done? then r.value.cash >= 0.0 else r.fault == BelowUnit
  {
    hide Fill, CostOk, LogOk, LogFits, Sum;
    var pending := PendingAt(s, bars, c, i);
    if pending == Some(Buy) {
      assert s.quantity == 0.0;
      ShareWithin(s.cash, bars[i].open, c.allocation);
      BuyWithinCash(s.cash, bars[i].open, Share(Equity(s, bars[i].open), c.allocation), c.cost);
    } else if pending == Some(Sell) {
      SaleProceeds(s.cash, s.quantity, bars[i].open, c.cost);
    }
  }

  lemma ShareWithin(cash: real, price: real, allocation: real)
    requires cash >= 0.0 && 0.0 < allocation <= 1.0
    ensures 0.0 <= Share(cash + Worth(0.0, price), allocation) <= cash
  {
    MulNonneg(cash, allocation);
    MulMono(allocation, 1.0, cash);
    assert Worth(0.0, price) == 0.0;
    assert Share(cash, allocation) == allocation * cash;
  }

  /** With ordinary costs and positive prices a screen can only stop at an
      allocation below one unit: no purchase ever exceeds the cash, and the
      position checks never fail. */
  lemma {:induction false} OnlyBelowUnit(bars: seq<Bar>, c: Screen, n: nat)
    requires Ready(bars, c) && WARMUP + n <= |bars| && CostOk(c.cost) && forall k: nat :: k < |bars| ==> bars[k].open > 0.0
    ensures var r := Replay(bars, c, n); if r.Done? then r.value.cash >= 0.0 else r.fault == BelowUnit
  {
    hide OpenBar, CloseBar, Kept, Open, CostOk;
    if n > 0 {
      OnlyBelowUnit(bars, c, n - 1);
      if Replay(bars, c, n - 1).Done? {
        ReplayKeeps(bars, c, n - 1);
        var s, i := Replay(bars, c, n - 1).value, WARMUP + n - 1;
        OpenSucceeds(s, bars, c, i);
        if OpenBar(s, bars, c, i).Done? {
          OpenKeeps(s, bars, c, i);
          CloseKeeps(OpenBar(s, bars, c, i).value, bars, c, i);
          CloseKeepsCash(OpenBar(s, bars, c, i).value, bars, c, i);
        }
      }
    }
  }

  lemma CloseKeepsCash(s: State, bars: seq<Bar>, c: Screen, i: nat)
    requires WARMUP <= i < |bars|
    ensures var r := CloseBar(s, bars, c, i); r.Done? ==> r.value.cash == s.cash
  {
    hide Equity, Fraction, Below, Enters;
  }
}
