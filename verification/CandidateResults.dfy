/** What every completed candidate screen did, spelled out: when exactly it
    bought and sold, for how much, and what its marks and report then say. */
module CandidateResults {
  import opened Exact
  import opened Outcomes
  import opened Drawdown
  import opened Candidate
  import opened CandidateTheorems

  // ----- the account along the trades

  function CashAfter(log: seq<Trade>, n: nat): real
    requires n <= |log|
  {
    if n == 0 then 10000.0 else log[n - 1].cash
  }

  function QuantityAfter(log: seq<Trade>, n: nat): real
    requires n <= |log|
  {
    if n == 0 then 0.0 else log[n - 1].quantity
  }

  /** The price of a unit bought or sold at an opening, and with the fee on top; and the part of the cash to spend. */
  function Ask(open: real, c: Cost): real { open * (1.0 + (c.halfSpread + c.slippage)) }

  function Bid(open: real, c: Cost): real { open * (1.0 - (c.halfSpread + c.slippage)) }

  function WithFee(price: real, fee: real): real { price * (1.0 + fee) }

  function PartOf(cash: real, allocation: real): real { cash * allocation }

  ghost predicate BuyTold(t: Trade, cash: real, quantity: real, open: real, allocation: real, c: Cost)
  {
    && t.quantity > quantity && t.notional == (t.quantity - quantity) * Ask(open, c) && t.fee == t.notional * c.fee
    && t.cash == cash - t.notional - t.fee
    && (quantity == 0.0 && WithFee(Ask(open, c), c.fee) > 0.0 ==> MostUnits(t.quantity, WithFee(Ask(open, c), c.fee), PartOf(cash, allocation)))
  }

  ghost predicate SellTold(t: Trade, cash: real, quantity: real, open: real, c: Cost)
  {
    && t.quantity == 0.0 && t.notional == quantity * Bid(open, c) && t.fee == t.notional * c.fee
    && t.cash == cash + t.notional - t.fee
  }

  ghost predicate TradeTold(log: seq<Trade>, k: nat, bars: seq<Bar>, c: Screen)
    requires k < |log|
  {
    && 720 <= log[k].index < |bars|
    && var open := bars[log[k].index].open;
    if log[k].side == Buy then BuyTold(log[k], CashAfter(log, k), QuantityAfter(log, k), open, c.allocation, c.cost)
    else SellTold(log[k], CashAfter(log, k), QuantityAfter(log, k), open, c.cost)
  }

  // ----- marks

  /** The `n`-th trade is the last one before bar `i`. */
  ghost predicate LastBefore(log: seq<Trade>, i: nat, n: nat)
  {
    n <= |log| && (forall j :: 0 <= j < n ==> log[j].index < i) && (forall j :: n <= j < |log| ==> log[j].index >= i)
  }

  /** The mark of bar `720 + k`: cash and holding after its opening, at its close. */
  ghost predicate ValueTold(value: real, k: nat, log: seq<Trade>, bars: seq<Bar>)
  {
    720 + k < |bars| && exists n: nat :: n <= |log| && LastBefore(log, 721 + k, n) && value == CashAfter(log, n) + QuantityAfter(log, n) * bars[720 + k].close
  }

  /** A mark stood a fifth or more below an earlier mark or the opening cash. */
  ghost predicate Fallen(values: seq<real>, k: nat)
  {
    k < |values| && (values[k] <= 10000.0 * 0.8 || exists m: nat :: m <= k && values[k] <= values[m] * 0.8)
  }

  ghost predicate PausedBy(values: seq<real>, n: nat) { exists k: nat :: k < n && Fallen(values, k) }

  // ----- the rules

  ghost predicate TradeAt(log: seq<Trade>, i: nat, side: Side) { exists k: nat :: k < |log| && log[k].index == i && log[k].side == side }

  /** The trade opened at bar `b` is still open before bar `i`. */
  ghost predicate HeldFrom(log: seq<Trade>, i: nat, b: nat)
  {
    exists n: nat :: n <= |log| && LastBefore(log, i, n) && 0 < n && log[n - 1].side == Buy && log[n - 1].index == b
  }

  /** The entry rule of a family at the close of bar `i`. */
  ghost predicate EntryHolds(bars: seq<Bar>, family: Family, i: nat)
    requires 720 <= i < |bars|
  {
    && (family == Momentum ==> bars[i].close > bars[i - 720].close)
    && (family == Reversal ==> bars[i].close <= bars[i - 24].close * 0.95)
  }

  /** The exit rule of a trade bought at bar `b`, at the close of bar `i`. */
  ghost predicate ExitHolds(bars: seq<Bar>, family: Family, b: nat, i: nat)
    requires 720 <= i < |bars| && 0 < b < |bars|
  {
    && (family == Momentum ==> bars[i].close <= bars[i - 720].close)
    && (family == Reversal ==> bars[i].close >= bars[b - 1].close || i - b + 1 >= 48)
  }

  /** What the opening of bar `i` does: buys exactly on the entry of a flat,
      unpaused account, and sells exactly on a fall, the exit, or the last bar. */
  ghost predicate OpeningTold(log: seq<Trade>, values: seq<real>, bars: seq<Bar>, c: Screen, i: nat)
  {
    && (c.benchmark ==> (TradeAt(log, i, Buy) <==> i == 720))
    && (!c.benchmark && 720 < i < |bars| ==>
          (TradeAt(log, i, Buy) <==>
             i < |bars| - 1 && (forall b: nat :: !HeldFrom(log, i, b)) && !PausedBy(values, i - 720) && EntryHolds(bars, c.family, i - 1)))
    && (!c.benchmark && i == 720 ==> !TradeAt(log, i, Buy))
    && (i + 1 == |bars| ==> (TradeAt(log, i, Sell) <==> exists b: nat :: HeldFrom(log, i, b)))
    && (c.benchmark && i + 1 < |bars| ==> !TradeAt(log, i, Sell))
    && (!c.benchmark && 720 < i < |bars| - 1 ==>
          (TradeAt(log, i, Sell) <==>
             exists b: nat :: HeldFrom(log, i, b) && 0 < b < |bars| && (Fallen(values, i - 721) || ExitHolds(bars, c.family, b, i - 1))))
    && (!c.benchmark && i == 720 ==> !TradeAt(log, i, Sell))
  }

  // ----- totals

  function FeesPaid(log: seq<Trade>): real { if log == [] then 0.0 else FeesPaid(log[..|log| - 1]) + log[|log| - 1].fee }

  function Turned(log: seq<Trade>): real { if log == [] then 0.0 else Turned(log[..|log| - 1]) + log[|log| - 1].notional }

  /** Each buy and the sale after it is one result. */
  ghost predicate ResultsTold(results: seq<real>, log: seq<Trade>)
  {
    && |results| == |log| / 2
    && forall k: nat :: k < |results| ==>
         results[k] == (log[2 * k + 1].notional - log[2 * k + 1].fee) - (log[2 * k].notional + log[2 * k].fee)
  }

  // ----- one trade more

  lemma AccountBefore(log: seq<Trade>, t: Trade, n: nat)
    requires n <= |log|
    ensures CashAfter(log + [t], n) == CashAfter(log, n) && QuantityAfter(log + [t], n) == QuantityAfter(log, n)
  {
    if n > 0 {
      assert (log + [t])[n - 1] == log[n - 1];
    }
  }

  lemma TradeStays(log: seq<Trade>, t: Trade, k: nat, bars: seq<Bar>, c: Screen)
    requires k < |log| && TradeTold(log, k, bars, c)
    ensures TradeTold(log + [t], k, bars, c)
  {
    hide BuyTold, SellTold;
    assert (log + [t])[k] == log[k];
    AccountBefore(log, t, k);
  }

  lemma LastStays(log: seq<Trade>, t: Trade, i: nat, n: nat)
    requires t.index >= i && n <= |log|
    ensures LastBefore(log + [t], i, n) <==> LastBefore(log, i, n)
  {
    var more := log + [t];
    assert forall j :: 0 <= j < |log| ==> more[j] == log[j];
    if LastBefore(more, i, n) {
      forall j | 0 <= j < |log|
        ensures (j < n ==> log[j].index < i) && (j >= n ==> log[j].index >= i)
      {
        assert more[j] == log[j];
      }
    }
  }

  lemma LastNotMore(log: seq<Trade>, t: Trade, i: nat)
    requires t.index >= i
    ensures !LastBefore(log + [t], i, |log| + 1)
  {
    assert (log + [t])[|log|] == t;
  }

  lemma HeldStays(log: seq<Trade>, t: Trade, i: nat, b: nat)
    requires t.index >= i
    ensures HeldFrom(log + [t], i, b) <==> HeldFrom(log, i, b)
  {
    hide LastBefore;
    var more := log + [t];
    if HeldFrom(log, i, b) {
      var n: nat :| n <= |log| && LastBefore(log, i, n) && 0 < n && log[n - 1].side == Buy && log[n - 1].index == b;
      LastStays(log, t, i, n);
      assert more[n - 1] == log[n - 1];
    }
    if HeldFrom(more, i, b) {
      var n: nat :| n <= |more| && LastBefore(more, i, n) && 0 < n && more[n - 1].side == Buy && more[n - 1].index == b;
      LastNotMore(log, t, i);
      LastStays(log, t, i, n);
      assert more[n - 1] == log[n - 1];
    }
  }

  lemma TradeAtStays(log: seq<Trade>, t: Trade, i: nat, side: Side)
    requires t.index != i
    ensures TradeAt(log + [t], i, side) <==> TradeAt(log, i, side)
  {
    var more := log + [t];
    if TradeAt(log, i, side) {
      var k: nat :| k < |log| && log[k].index == i && log[k].side == side;
      assert more[k] == log[k];
    }
  }

  lemma ValueStays(value: real, k: nat, log: seq<Trade>, t: Trade, bars: seq<Bar>)
    requires ValueTold(value, k, log, bars) && t.index >= 721 + k
    ensures ValueTold(value, k, log + [t], bars)
  {
    hide LastBefore;
    var n: nat :| n <= |log| && LastBefore(log, 721 + k, n) && value == CashAfter(log, n) + QuantityAfter(log, n) * bars[720 + k].close;
    LastStays(log, t, 721 + k, n);
    AccountBefore(log, t, n);
  }

  lemma OpeningIgnoresTrade(log: seq<Trade>, t: Trade, values: seq<real>, bars: seq<Bar>, c: Screen, i: nat)
    requires OpeningTold(log, values, bars, c, i) && t.index > i
    ensures OpeningTold(log + [t], values, bars, c, i)
  {
    hide HeldFrom, TradeAt, PausedBy, Fallen, EntryHolds, ExitHolds;
    TradeAtStays(log, t, i, Buy);
    TradeAtStays(log, t, i, Sell);
    forall b: nat
      ensures HeldFrom(log + [t], i, b) <==> HeldFrom(log, i, b)
    {
      HeldStays(log, t, i, b);
    }
  }

  // ----- one mark more

  lemma FallenStays(values: seq<real>, value: real, k: nat)
    requires k < |values|
    ensures Fallen(values + [value], k) <==> Fallen(values, k)
  {
    var more := values + [value];
    assert forall m :: 0 <= m < |values| ==> more[m] == values[m];
    if Fallen(more, k) && more[k] > 10000.0 * 0.8 {
      var m: nat :| m <= k && more[k] <= more[m] * 0.8;
      assert values[k] <= values[m] * 0.8;
    }
    if Fallen(values, k) && values[k] > 10000.0 * 0.8 {
      var m: nat :| m <= k && values[k] <= values[m] * 0.8;
      assert more[k] <= more[m] * 0.8;
    }
  }

  lemma PausedStays(values: seq<real>, value: real, n: nat)
    requires n <= |values|
    ensures PausedBy(values + [value], n) <==> PausedBy(values, n)
  {
    hide Fallen;
    forall k: nat | k < n
      ensures Fallen(values + [value], k) <==> Fallen(values, k)
    {
      FallenStays(values, value, k);
    }
  }

  lemma OpeningIgnoresMark(log: seq<Trade>, values: seq<real>, value: real, bars: seq<Bar>, c: Screen, i: nat)
    requires OpeningTold(log, values, bars, c, i) && 720 <= i <= 720 + |values|
    ensures OpeningTold(log, values + [value], bars, c, i)
  {
    hide HeldFrom, TradeAt, PausedBy, Fallen, EntryHolds, ExitHolds;
    PausedStays(values, value, i - 720);
    if i > 720 {
      FallenStays(values, value, i - 721);
    }
  }

  /** The drawdown at the last mark reaches the pause exactly when that mark stands a fifth below an earlier one. */
  lemma DrawdownIsFall(values: seq<real>)
    requires values != []
    ensures Below(values) >= PAUSE <==> Fallen(values, |values| - 1)
  {
    var k := |values| - 1;
    var peak := PeakFrom(INITIAL_CASH, values);
    PeakAtLeast(INITIAL_CASH, values);
    PeakIsMaximum(INITIAL_CASH, values);
    hide PeakFrom;
    FallOfPeak(peak, values[k]);
    if values[k] <= peak * 0.8 {
      var i: nat :| i <= |values| && At(INITIAL_CASH, values, i) == peak;
      if i > 0 {
        assert values[k] <= values[i - 1] * 0.8;
      }
    }
    if Fallen(values, k) {
      assert At(INITIAL_CASH, values, 0) <= peak;
      if values[k] > 10000.0 * 0.8 {
        var m: nat :| m <= k && values[k] <= values[m] * 0.8;
        assert At(INITIAL_CASH, values, m + 1) <= peak;
      }
    }
  }

  lemma FallOfPeak(peak: real, value: real)
    requires peak > 0.0
    ensures (peak - value) / peak >= 0.20 <==> value <= peak * 0.8
  {
    if value <= peak * 0.8 {
      QuotientAtLeast(peak - value, peak, 0.20);
    }
    if (peak - value) / peak >= 0.20 {
      DivMul(peak - value, peak);
      MulMono(0.20, (peak - value) / peak, peak);
    }
  }

  // ----- what is true before each bar

  ghost predicate AccountTold(s: State, bars: seq<Bar>, c: Screen)
  {
    && s.cash == CashAfter(s.log, |s.log|) && s.quantity == QuantityAfter(s.log, |s.log|)
    && (forall k: nat :: k < |s.log| ==> TradeTold(s.log, k, bars, c))
    && s.fees == FeesPaid(s.log) && s.turnover == Turned(s.log)
    && ResultsTold(s.results, s.log)
    && (s.position.Some? ==> s.log != [] && s.position.value.cost == s.log[|s.log| - 1].notional + s.log[|s.log| - 1].fee)
  }

  ghost predicate HistoryTold(s: State, bars: seq<Bar>, c: Screen, i: nat)
  {
    && (forall k: nat :: k < |s.values| ==> ValueTold(s.values[k], k, s.log, bars))
    && (forall h: nat :: 720 <= h < i ==> OpeningTold(s.log, s.values, bars, c, h))
  }

  ghost predicate PendingTold(s: State, bars: seq<Bar>, c: Screen, i: nat)
  {
    && |s.values| == i - 720
    && (!c.benchmark && s.position.Some? ==> 720 < s.position.value.index < |bars| && s.entrySignal == Some(bars[s.position.value.index - 1].close))
    && (!c.benchmark ==> (s.pausedAt.Some? <==> PausedBy(s.values, |s.values|)))
    && (i == 720 || c.benchmark ==> s.pending == None)
    && (!c.benchmark && 720 < i < |bars| ==>
          && (s.pending == Some(Buy) <==>
                i < |bars| - 1 && s.position.None? && !PausedBy(s.values, i - 720) && EntryHolds(bars, c.family, i - 1))
          && (s.pending == Some(Sell) <==>
                s.position.Some? && 0 < s.position.value.index < |bars|
                && (Fallen(s.values, i - 721) || ExitHolds(bars, c.family, s.position.value.index, i - 1))))
    && (s.pending == Some(Buy) ==> i > 720 && i <= |bars| && s.entrySignal == Some(bars[i - 1].close))
  }

  ghost predicate Told(s: State, bars: seq<Bar>, c: Screen, i: nat)
  {
    AccountTold(s, bars, c) && HistoryTold(s, bars, c, i) && PendingTold(s, bars, c, i)
  }

  /** Before bar `i` something is held exactly from the bar of the last trade, if that bought. */
  lemma HeldNow(s: State, c: Screen, i: nat, last: nat)
    requires Kept(s, c, i, last)
    ensures forall b: nat :: HeldFrom(s.log, i, b) <==> s.position.Some? && s.position.value.index == b
  {
    hide Balanced, PendingOk;
    forall b: nat
      ensures HeldFrom(s.log, i, b) <==> s.position.Some? && s.position.value.index == b
    {
      assert LastBefore(s.log, i, |s.log|);
      if HeldFrom(s.log, i, b) {
        var n: nat :| n <= |s.log| && LastBefore(s.log, i, n) && 0 < n && s.log[n - 1].side == Buy && s.log[n - 1].index == b;
        assert n == |s.log|;
      }
    }
  }

  // ----- the opening

  /** Rounding a positive quotient down to eight decimals gives the most units the amount pays for. */
  lemma BoughtIsMost(amount: real, gross: real)
    requires gross > 0.0 && Bought(amount, gross) > 0.0
    ensures MostUnits(Bought(amount, gross), gross, amount)
  {
    var x := amount / gross;
    WholeWithin(x);
    var q := Bought(amount, gross);
    assert q <= x < q + 0.00000001 && (q * 100000000.0).Floor as real == q * 100000000.0;
    hide RoundDownUnits, Bought;
    MostOf(q, x, gross, amount);
  }

  lemma BuyIsTold(cash: real, quantity: real, open: real, allocation: real, i: nat, c: Cost)
    requires Fill(cash, quantity, Buy, open, Share(cash + Worth(quantity, open), allocation), c).Done?
    ensures var f := Fill(cash, quantity, Buy, open, Share(cash + Worth(quantity, open), allocation), c).value;
      BuyTold(Trade(i, Buy, f.notional, f.fee, f.cash, f.quantity), cash, quantity, open, allocation, c)
  {
    hide MostUnits, Share, Worth, Fill, Gross, Bought, PriceOf, Ask, WithFee, PartOf;
    var amount := Share(cash + Worth(quantity, open), allocation);
    BuyFields(cash, quantity, open, amount, c);
    PricesAre(open, c);
    if quantity == 0.0 && WithFee(Ask(open, c), c.fee) > 0.0 {
      FlatShare(cash, open, allocation);
      BoughtIsMost(amount, WithFee(Ask(open, c), c.fee));
    }
  }

  /** The prices spelled out here are the program's. */
  lemma PricesAre(open: real, c: Cost)
    ensures Ask(open, c) == PriceOf(Buy, open, c) && Bid(open, c) == PriceOf(Sell, open, c)
    ensures WithFee(Ask(open, c), c.fee) == Gross(PriceOf(Buy, open, c), c.fee)
  {
    assert Ask(open, c) == PriceOf(Buy, open, c);
    hide Ask, PriceOf;
  }

  lemma FlatShare(cash: real, open: real, allocation: real)
    ensures Share(cash + Worth(0.0, open), allocation) == PartOf(cash, allocation)
  {
    assert Worth(0.0, open) == 0.0;
  }

  lemma BuyFields(cash: real, quantity: real, open: real, amount: real, c: Cost)
    requires Fill(cash, quantity, Buy, open, amount, c).Done?
    ensures var f, price := Fill(cash, quantity, Buy, open, amount, c).value, PriceOf(Buy, open, c);
      && Gross(price, c.fee) != 0.0
      && f.quantity == quantity + Bought(amount, Gross(price, c.fee)) > quantity
      && f.notional == (f.quantity - quantity) * price && f.fee == f.notional * c.fee && f.cash == cash - f.notional - f.fee
  {
    hide Bought, PriceOf, Gross;
    var price := PriceOf(Buy, open, c);
    var bought := Bought(amount, Gross(price, c.fee));
    TradeAmounts(bought, quantity, price, c.fee);
    hide Worth, FeeOn;
  }

  lemma TradeAmounts(bought: real, quantity: real, price: real, fee: real)
    ensures Worth(bought, price) == ((quantity + bought) - quantity) * price && FeeOn(bought, price, fee) == Worth(bought, price) * fee
  {}

  lemma SellIsTold(cash: real, quantity: real, open: real, i: nat, c: Cost)
    ensures Fill(cash, quantity, Sell, open, 0.0, c).Done?
    ensures var f := Fill(cash, quantity, Sell, open, 0.0, c).value;
      SellTold(Trade(i, Sell, f.notional, f.fee, f.cash, f.quantity), cash, quantity, open, c)
  {
    hide PriceOf, Bid;
    PricesAre(open, c);
  }

  lemma TotalsAppend(log: seq<Trade>, t: Trade)
    ensures FeesPaid(log + [t]) == FeesPaid(log) + t.fee && Turned(log + [t]) == Turned(log) + t.notional
  {
    assert (log + [t])[..|log|] == log;
  }

  lemma ResultsAppend(results: seq<real>, log: seq<Trade>, t: Trade)
    requires ResultsTold(results, log)
    ensures |log| % 2 == 0 ==> ResultsTold(results, log + [t])
    ensures |log| % 2 == 1 ==>
      ResultsTold(results + [(t.notional - t.fee) - (log[|log| - 1].notional + log[|log| - 1].fee)], log + [t])
  {
    var more := log + [t];
    assert forall k :: 0 <= k < |log| ==> more[k] == log[k];
    assert more[|log|] == t;
  }

  lemma OpenAccount(s: State, bars: seq<Bar>, c: Screen, i: nat)
    requires 720 <= i < |bars| && |bars| >= 723 && Kept(s, c, i, |bars| - 1) && AccountTold(s, bars, c) && OpenBar(s, bars, c, i).Done?
    ensures AccountTold(OpenBar(s, bars, c, i).value, bars, c)
  {
    hide Fill, LogOk, Sum, TradeTold, ResultsTold, FeesPaid, Turned, Share, Worth;
    var pending := PendingAt(s, bars, c, i);
    if pending.Some? {
      var side := pending.value;
      var amount := if side == Buy then Share(s.cash + Worth(s.quantity, bars[i].open), c.allocation) else 0.0;
      var f := Fill(s.cash, s.quantity, side, bars[i].open, amount, c.cost).value;
      var t := Trade(i, side, f.notional, f.fee, f.cash, f.quantity);
      var more := s.log + [t];
      TotalsAppend(s.log, t);
      ResultsAppend(s.results, s.log, t);
      TradeIsTold(s, t, bars, c, i, f);
      forall k: nat | k < |s.log|
        ensures TradeTold(more, k, bars, c)
      {
        TradeStays(s.log, t, k, bars, c);
      }
    }
  }

  lemma TradeIsTold(s: State, t: Trade, bars: seq<Bar>, c: Screen, i: nat, f: Filled)
    requires 720 <= i < |bars| && s.cash == CashAfter(s.log, |s.log|) && s.quantity == QuantityAfter(s.log, |s.log|)
    requires var amount := if t.side == Buy then Share(s.cash + Worth(s.quantity, bars[i].open), c.allocation) else 0.0;
      Fill(s.cash, s.quantity, t.side, bars[i].open, amount, c.cost) == Done(f)
    requires t == Trade(i, t.side, f.notional, f.fee, f.cash, f.quantity)
    ensures TradeTold(s.log + [t], |s.log|, bars, c)
  {
    hide Fill, BuyTold, SellTold, Share, Worth;
    AccountBefore(s.log, t, |s.log|);
    if t.side == Buy {
      BuyIsTold(s.cash, s.quantity, bars[i].open, c.allocation, i, c.cost);
    } else {
      SellIsTold(s.cash, s.quantity, bars[i].open, i, c.cost);
    }
  }

  /** What the opening of bar `i` does is what was pending there. */
  lemma OpeningIs(s: State, bars: seq<Bar>, c: Screen, i: nat)
    requires 720 <= i < |bars| && |bars| >= 723 && Kept(s, c, i, |bars| - 1) && PendingTold(s, bars, c, i) && OpenBar(s, bars, c, i).Done?
    ensures OpeningTold(OpenBar(s, bars, c, i).value.log, s.values, bars, c, i)
  {
    hide Fill, Equity, Share, Sum, EntryHolds, ExitHolds, PausedBy, Fallen, HeldFrom, TradeAt, LogOk;
    var o := OpenBar(s, bars, c, i).value;
    var pending := PendingAt(s, bars, c, i);
    HeldNow(s, c, i, |bars| - 1);
    NoneYet(s, c, i, |bars| - 1);
    if pending.Some? {
      var t := o.log[|s.log|];
      assert o.log == s.log + [t];
      TradeNow(s.log, t, i);
      forall b: nat
        ensures HeldFrom(o.log, i, b) <==> HeldFrom(s.log, i, b)
      {
        HeldStays(s.log, t, i, b);
      }
    }
    BalancedHeld(s);
    if s.position.Some? {
      assert HeldFrom(s.log, i, s.position.value.index);
    }
  }

  lemma NoneYet(s: State, c: Screen, i: nat, last: nat)
    requires Kept(s, c, i, last)
    ensures !TradeAt(s.log, i, Buy) && !TradeAt(s.log, i, Sell)
  {
    hide Balanced, PendingOk;
  }

  lemma TradeNow(log: seq<Trade>, t: Trade, i: nat)
    requires t.index == i && !TradeAt(log, i, Buy) && !TradeAt(log, i, Sell)
    ensures forall side :: TradeAt(log + [t], i, side) <==> side == t.side
  {
    var more := log + [t];
    assert forall k: nat :: k < |log| ==> more[k] == log[k] && log[k].index != i;
    assert more[|log|] == t;
  }

  lemma OpenHistory(s: State, bars: seq<Bar>, c: Screen, i: nat)
    requires 720 <= i < |bars| && |bars| >= 723 && Kept(s, c, i, |bars| - 1) && Told(s, bars, c, i) && OpenBar(s, bars, c, i).Done?
    ensures HistoryTold(OpenBar(s, bars, c, i).value, bars, c, i + 1)
  {
    hide Fill, Equity, Share, Sum, LogOk, OpeningTold, ValueTold, AccountTold, Balanced;
    OpeningIs(s, bars, c, i);
    var o := OpenBar(s, bars, c, i).value;
    if PendingAt(s, bars, c, i).Some? {
      var t := o.log[|s.log|];
      assert o.log == s.log + [t] && t.index == i;
      hide PendingTold, OpenBar, Kept;
      forall h: nat | 720 <= h < i
        ensures OpeningTold(o.log, s.values, bars, c, h)
      {
        OpeningIgnoresTrade(s.log, t, s.values, bars, c, h);
      }
      forall k: nat | k < |s.values|
        ensures ValueTold(s.values[k], k, o.log, bars)
      {
        ValueStays(s.values[k], k, s.log, t, bars);
      }
    }
  }

  // ----- the close

  /** Between the opening and the close of bar `i`. */
  ghost predicate Opened(o: State, bars: seq<Bar>, c: Screen, i: nat)
  {
    && AccountTold(o, bars, c) && HistoryTold(o, bars, c, i + 1) && |o.values| == i - 720
    && (!c.benchmark && o.position.Some? ==> 720 < o.position.value.index < |bars| && o.entrySignal == Some(bars[o.position.value.index - 1].close))
    && (!c.benchmark ==> (o.pausedAt.Some? <==> PausedBy(o.values, |o.values|)))
  }

  lemma OpenIsTold(s: State, bars: seq<Bar>, c: Screen, i: nat)
    requires 720 <= i < |bars| && |bars| >= 723 && Kept(s, c, i, |bars| - 1) && Told(s, bars, c, i) && OpenBar(s, bars, c, i).Done?
    ensures Opened(OpenBar(s, bars, c, i).value, bars, c, i)
  {
    hide Fill, Equity, Share, Sum, LogOk, AccountTold, HistoryTold, PausedBy, Fallen, EntryHolds, ExitHolds;
    OpenAccount(s, bars, c, i);
    OpenHistory(s, bars, c, i);
    BalancedHeld(s);
  }

  /** Deciding leaves the account and the history alone. */
  lemma CloseFrame(o: State, bars: seq<Bar>, c: Screen, i: nat)
    requires 720 <= i && i + 1 < |bars| && CloseBar(o, bars, c, i).Done?
    ensures var t, equity := CloseBar(o, bars, c, i).value, Equity(o, bars[i].close);
      && t.cash == o.cash && t.quantity == o.quantity && t.position == o.position && t.log == o.log && t.fees == o.fees
      && t.turnover == o.turnover && t.results == o.results && t.values == o.values + [equity]
      && t.exposure == o.exposure + Fraction(o.quantity, bars[i].close, equity)
  {
    hide Equity, Fraction, Below, Enters;
  }

  lemma MarkIsTold(o: State, bars: seq<Bar>, c: Screen, i: nat)
    requires 720 <= i < |bars| && Open(o, c, i, |bars| - 1) && AccountTold(o, bars, c)
    ensures ValueTold(Equity(o, bars[i].close), i - 720, o.log, bars)
  {
    hide Balanced, TradeTold, ResultsTold, FeesPaid, Turned;
    assert LastBefore(o.log, 721 + (i - 720), |o.log|);
  }

  lemma CloseHistory(o: State, t: State, bars: seq<Bar>, c: Screen, i: nat, equity: real)
    requires 720 <= i < |bars| && |o.values| == i - 720 && HistoryTold(o, bars, c, i + 1) && ValueTold(equity, i - 720, o.log, bars)
    requires t.log == o.log && t.values == o.values + [equity]
    ensures HistoryTold(t, bars, c, i + 1)
  {
    hide OpeningTold, ValueTold;
    forall h: nat | 720 <= h < i + 1
      ensures OpeningTold(t.log, t.values, bars, c, h)
    {
      OpeningIgnoresMark(o.log, o.values, equity, bars, c, h);
    }
  }

  lemma PausedNow(values: seq<real>, value: real)
    ensures PausedBy(values + [value], |values| + 1) <==> PausedBy(values, |values|) || Fallen(values + [value], |values|)
  {
    hide Fallen;
    PausedStays(values, value, |values|);
    var more := values + [value];
    if PausedBy(more, |values| + 1) && !Fallen(more, |values|) {
      var k: nat :| k < |values| + 1 && Fallen(more, k);
      assert PausedBy(more, |values|);
    }
  }

  /** The entry and exit rules of a registered family, as spelled out here. */
  lemma RulesAre(s: State, bars: seq<Bar>, family: Family, i: nat)
    requires 720 <= i < |bars| && family != Unregistered
    ensures Enters(bars, family, i) <==> EntryHolds(bars, family, i)
    ensures s.position.Some? && 720 < s.position.value.index < |bars| && s.entrySignal == Some(bars[s.position.value.index - 1].close) ==>
      Exits(s, bars, family, i) == Done(ExitHolds(bars, family, s.position.value.index, i))
  {}

  lemma ClosePending(o: State, bars: seq<Bar>, c: Screen, i: nat)
    requires 720 <= i && i + 1 < |bars| && Open(o, c, i, |bars| - 1) && Opened(o, bars, c, i)
    requires (c.family != Unregistered || c.benchmark) && CloseBar(o, bars, c, i).Done?
    ensures PendingTold(CloseBar(o, bars, c, i).value, bars, c, i + 1)
  {
    hide Equity, Fraction, Below, Enters, Exits, LogOk, Sum, AccountTold, HistoryTold, PausedBy, Fallen, EntryHolds, ExitHolds;
    BalancedHeld(o);
    var equity := Equity(o, bars[i].close);
    var values := o.values + [equity];
    DrawdownIsFall(values);
    PausedNow(o.values, equity);
    if !c.benchmark {
      RulesAre(o.(values := values, exposure := o.exposure + Fraction(o.quantity, bars[i].close, equity)), bars, c.family, i);
    }
  }

  lemma CloseIsTold(o: State, bars: seq<Bar>, c: Screen, i: nat)
    requires 720 <= i && i + 1 < |bars| && Open(o, c, i, |bars| - 1) && Opened(o, bars, c, i)
    requires (c.family != Unregistered || c.benchmark) && CloseBar(o, bars, c, i).Done?
    ensures Told(CloseBar(o, bars, c, i).value, bars, c, i + 1)
  {
    hide CloseBar, Equity, Fraction, HistoryTold, PendingTold, Open, TradeTold, ResultsTold, FeesPaid, Turned, PausedBy, ValueTold;
    CloseFrame(o, bars, c, i);
    MarkIsTold(o, bars, c, i);
    CloseHistory(o, CloseBar(o, bars, c, i).value, bars, c, i, Equity(o, bars[i].close));
    ClosePending(o, bars, c, i);
  }

  // ----- exposure

  /** The part of a positive mark that is holding, and zero at any other. */
  ghost predicate ShareTold(share: real, value: real, k: nat, log: seq<Trade>, bars: seq<Bar>)
  {
    && 720 + k < |bars|
    && exists n: nat :: n <= |log| && LastBefore(log, 721 + k, n)
         && (if value > 0.0 then share * value == QuantityAfter(log, n) * bars[720 + k].close else share == 0.0)
  }

  /** One share for each mark, adding up to the exposure. */
  ghost predicate SharesTold(shares: seq<real>, s: State, bars: seq<Bar>)
  {
    |shares| == |s.values| && Sum(shares) == s.exposure && forall k: nat :: k < |shares| ==> ShareTold(shares[k], s.values[k], k, s.log, bars)
  }

  lemma ShareStays(share: real, value: real, k: nat, log: seq<Trade>, t: Trade, bars: seq<Bar>)
    requires ShareTold(share, value, k, log, bars) && t.index >= 721 + k
    ensures ShareTold(share, value, k, log + [t], bars)
  {
    hide LastBefore;
    var n: nat :| n <= |log| && LastBefore(log, 721 + k, n)
      && (if value > 0.0 then share * value == QuantityAfter(log, n) * bars[720 + k].close else share == 0.0);
    LastStays(log, t, 721 + k, n);
    AccountBefore(log, t, n);
  }

  lemma OpenShares(shares: seq<real>, s: State, bars: seq<Bar>, c: Screen, i: nat)
    requires 720 <= i < |bars| && SharesTold(shares, s, bars) && |s.values| == i - 720 && OpenBar(s, bars, c, i).Done?
    ensures SharesTold(shares, OpenBar(s, bars, c, i).value, bars)
  {
    hide Fill, Equity, Share, Sum, ShareTold;
    var o := OpenBar(s, bars, c, i).value;
    if PendingAt(s, bars, c, i).Some? {
      var t := o.log[|s.log|];
      assert o.log == s.log + [t];
      forall k: nat | k < |shares|
        ensures ShareTold(shares[k], s.values[k], k, o.log, bars)
      {
        ShareStays(shares[k], s.values[k], k, s.log, t, bars);
      }
    }
  }

  lemma CloseShares(shares: seq<real>, o: State, bars: seq<Bar>, c: Screen, i: nat)
    requires 720 <= i && i + 1 < |bars| && Open(o, c, i, |bars| - 1) && AccountTold(o, bars, c) && |o.values| == i - 720
    requires SharesTold(shares, o, bars) && CloseBar(o, bars, c, i).Done?
    ensures SharesTold(shares + [Fraction(o.quantity, bars[i].close, Equity(o, bars[i].close))], CloseBar(o, bars, c, i).value, bars)
  {
    hide CloseBar, Sum, ShareTold, Equity, Fraction;
    var equity := Equity(o, bars[i].close);
    var share := Fraction(o.quantity, bars[i].close, equity);
    CloseFrame(o, bars, c, i);
    SumAppend(shares, share);
    ShareIsTold(o, bars, c, i, equity);
  }

  lemma ShareIsTold(o: State, bars: seq<Bar>, c: Screen, i: nat, equity: real)
    requires 720 <= i < |bars| && Open(o, c, i, |bars| - 1) && AccountTold(o, bars, c)
    ensures ShareTold(Fraction(o.quantity, bars[i].close, equity), equity, i - 720, o.log, bars)
  {
    hide Balanced, TradeTold, ResultsTold, FeesPaid, Turned;
    assert LastBefore(o.log, 721 + (i - 720), |o.log|);
    if equity > 0.0 {
      DivMul(o.quantity * bars[i].close, equity);
    }
  }

  lemma {:induction false} SharesAreTold(bars: seq<Bar>, c: Screen, n: nat) returns (shares: seq<real>)
    requires Ready(bars, c) && 720 + n <= |bars| && Replay(bars, c, n).Done?
    ensures SharesTold(shares, Replay(bars, c, n).value, bars)
  {
    hide OpenBar, CloseBar, Kept, Open, Told, HistoryTold, AccountTold, SharesTold, Fraction, Equity;
    shares := [];
    if n == 0 {
      NothingShared(bars);
    } else {
      shares := SharesAreTold(bars, c, n - 1);
      ReplayIsTold(bars, c, n - 1);
      ReplayKeeps(bars, c, n - 1);
      var s, i := Replay(bars, c, n - 1).value, 720 + n - 1;
      ToldCount(s, bars, c, i);
      OpenShares(shares, s, bars, c, i);
      var o := OpenBar(s, bars, c, i).value;
      if i + 1 < |bars| {
        OpenKeeps(s, bars, c, i);
        OpenIsTold(s, bars, c, i);
        CloseShares(shares, o, bars, c, i);
        shares := shares + [Fraction(o.quantity, bars[i].close, Equity(o, bars[i].close))];
      } else {
        LastClose(o, bars, c, i);
      }
    }
  }

  lemma NothingShared(bars: seq<Bar>)
    ensures SharesTold([], Initial, bars)
  {}

  lemma ToldCount(s: State, bars: seq<Bar>, c: Screen, i: nat)
    requires 720 <= i < |bars| && Told(s, bars, c, i)
    ensures |s.values| == i - 720
  {
    hide AccountTold, HistoryTold, Fallen, EntryHolds, ExitHolds, PausedBy;
  }

  // ----- whole screens

  lemma {:induction false} ReplayIsTold(bars: seq<Bar>, c: Screen, n: nat)
    requires Ready(bars, c) && 720 + n <= |bars| && Replay(bars, c, n).Done?
    ensures 720 + n < |bars| ==> Told(Replay(bars, c, n).value, bars, c, 720 + n)
    ensures 720 + n == |bars| ==> Opened(Replay(bars, c, n).value, bars, c, |bars| - 1)
  {
    hide OpenBar, CloseBar, Kept, Open, Told, Opened;
    if n == 0 {
      InitialTold(bars, c);
    } else {
      ReplayIsTold(bars, c, n - 1);
      ReplayKeeps(bars, c, n - 1);
      var s, i := Replay(bars, c, n - 1).value, 720 + n - 1;
      OpenKeeps(s, bars, c, i);
      OpenIsTold(s, bars, c, i);
      var o := OpenBar(s, bars, c, i).value;
      if i + 1 < |bars| {
        CloseIsTold(o, bars, c, i);
      } else {
        LastClose(o, bars, c, i);
      }
    }
  }

  lemma InitialTold(bars: seq<Bar>, c: Screen)
    ensures Told(Initial, bars, c, 720)
  {
    hide OpeningTold, ValueTold, TradeTold, Fallen, EntryHolds, ExitHolds;
  }

  /** Everything a completed screen did. */
  ghost predicate ScreenTold(s: State, bars: seq<Bar>, c: Screen)
  {
    && AccountTold(s, bars, c) && |s.values| == |bars| - 721 && s.quantity == 0.0
    && (forall k: nat :: k < |s.values| ==> ValueTold(s.values[k], k, s.log, bars))
    && (exists shares :: SharesTold(shares, s, bars))
    && (forall i: nat :: 720 <= i < |bars| ==> OpeningTold(s.log, s.values, bars, c, i))
  }

  /** The report in the terms of the last state. */
  ghost predicate ReportTold(r: Report, s: State)
  {
    && r.netReturn * 10000.0 == s.cash - 10000.0 && r.turnover * 10000.0 == Turned(s.log) && r.fees == FeesPaid(s.log)
    && r.roundTrips == |s.results| == |s.log| / 2
    && (s.results == [] ==> r.largest == 0.0)
    && (s.results != [] ==> r.largest in s.results && forall k :: 0 <= k < |s.results| ==> s.results[k] <= r.largest)
    && r.excludingLargest == s.cash - 10000.0 - r.largest
    && (s.values != [] ==> r.averageExposure * |s.values| as real == s.exposure)
  }

  lemma {:induction false} LargestIsMax(results: seq<real>)
    requires results != []
    ensures LargestOf(results) in results && forall k :: 0 <= k < |results| ==> results[k] <= LargestOf(results)
  {
    if |results| > 1 {
      LargestIsMax(results[..|results| - 1]);
    }
  }

  lemma ReportIsTold(s: State, bars: seq<Bar>, c: Screen)
    requires AccountTold(s, bars, c)
    ensures ReportTold(ReportOf(s), s)
  {
    hide TradeTold, WorstFall, UnderwaterHours, LongestRun, FeesPaid, Turned;
    DivMul(s.cash - INITIAL_CASH, INITIAL_CASH);
    DivMul(s.turnover, INITIAL_CASH);
    if s.results != [] {
      LargestIsMax(s.results);
    }
    if s.values != [] {
      DivMul(s.exposure, |s.values| as real);
    }
  }

  /** Every opening of a completed screen buys exactly on the entry rule of a
      flat, unpaused account, sells exactly on a fall of a fifth, the exit rule or
      the last bar, and every trade and mark is as spelled out. */
  lemma {:induction false} ScreenIsTold(bars: seq<Bar>, c: Screen)
    requires Ready(bars, c) && Completed(bars, c).Done?
    ensures ScreenTold(Completed(bars, c).value, bars, c) && ReportTold(ReportOf(Completed(bars, c).value), Completed(bars, c).value)
  {
    hide Replay, AccountTold, ValueTold, SharesTold, OpeningTold, ReportOf, ReportTold;
    var shares := SharesAreTold(bars, c, |bars| - 720);
    ReplayIsTold(bars, c, |bars| - 720);
    ReportIsTold(Completed(bars, c).value, bars, c);
  }
}
