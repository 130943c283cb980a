/** The fixed candidate screen: one hourly ledger for two entry families and a
    buy-and-hold benchmark, with a permanent pause after a 20% drawdown. */
module Candidate {
  import opened Exact
  import opened Outcomes
  import opened Drawdown

  datatype Bar = Bar(start: int, open: real, high: real, low: real, close: real)
  datatype Family = Momentum | Reversal | Unregistered
  datatype Side = Buy | Sell
  datatype Cost = Cost(fee: real, halfSpread: real, slippage: real)
  datatype Screen = Screen(family: Family, cost: Cost, allocation: real, benchmark: bool)

  datatype Fault = UnregisteredFamily | Incomplete | Noncontiguous | BelowUnit | ExceedsCash | DivisionByZero | NoPosition | NotLiquidated

  const WARMUP: nat := 720
  const REVERSAL_LOOKBACK: nat := 24
  const REVERSAL_DROP: real := 0.95
  const REVERSAL_HOURS: nat := 48
  const PAUSE: real := 0.20
  const INITIAL_CASH: real := 10000.0

  // ----- one fill

  function PriceOf(side: Side, opening: real, c: Cost): real
  {
    opening * (if side == Buy then 1.0 + (c.halfSpread + c.slippage) else 1.0 - (c.halfSpread + c.slippage))
  }

  function Bought(allocation: real, gross: real): real
    requires gross != 0.0
  {
    RoundDownUnits(allocation / gross * UNIT_SCALE)
  }

  datatype Filled = Filled(cash: real, quantity: real, fee: real, notional: real)

  function Fill(cash: real, quantity: real, side: Side, opening: real, allocation: real, c: Cost): Outcome<Filled, Fault>
  {
    var price := PriceOf(side, opening, c);
    if side == Buy then
      var gross := Gross(price, c.fee);
      if gross == 0.0 then Thrown(DivisionByZero) else
      var bought := Bought(allocation, gross);
      if bought <= 0.0 then Thrown(BelowUnit) else
      var notional := Worth(bought, price);
      var fee := FeeOn(bought, price, c.fee);
      if notional + fee > cash then Thrown(ExceedsCash)
      else Done(Filled(cash - notional - fee, quantity + bought, fee, notional))
    else
      var notional := Worth(quantity, price);
      var fee := FeeOn(quantity, price, c.fee);
      Done(Filled(cash + notional - fee, 0.0, fee, notional))
  }

  // ----- the loop state

  /** A settled fill and the account after it, kept for the statements about the replay only. */
  datatype Trade = Trade(index: nat, side: Side, notional: real, fee: real, cash: real, quantity: real)

  datatype Position = Position(cost: real, index: nat)

  /** `values` and `log` record the marks and fills, and `pausedAt` the bar of the pause. */
  datatype State = State(cash: real, quantity: real, position: Option<Position>, entrySignal: Option<real>, pending: Option<Side>,
                         pausedAt: Option<nat>, fees: real, turnover: real, exposure: real, results: seq<real>,
                         values: seq<real>, log: seq<Trade>)

  const Initial := State(INITIAL_CASH, 0.0, None, None, None, None, 0.0, 0.0, 0.0, [], [], [])

  predicate Ready(bars: seq<Bar>, c: Screen)
  {
    && (c.family != Unregistered || c.benchmark)
    && |bars| >= WARMUP + 3 && 0.0 < c.allocation <= 1.0
    && forall i: nat, j: nat :: i + 1 == j < |bars| ==> bars[j].start == bars[i].start + 1
  }

  function Equity(s: State, price: real): real { s.cash + Worth(s.quantity, price) }

  function Share(equity: real, allocation: real): real { equity * allocation }

  function PendingAt(s: State, bars: seq<Bar>, c: Screen, i: nat): Option<Side>
  {
    if c.benchmark && i == WARMUP then Some(Buy)
    else if i + 1 == |bars| then (if s.quantity != 0.0 then Some(Sell) else None)
    else s.pending
  }

  /** The opening of a bar: settle what is pending. */
  function OpenBar(s: State, bars: seq<Bar>, c: Screen, i: nat): Outcome<State, Fault>
    requires i < |bars|
  {
    var pending := PendingAt(s, bars, c, i);
    if pending.None? then Done(s.(pending := None))
    else
      var side := pending.value;
      var filled :- Fill(s.cash, s.quantity, side, bars[i].open,
                         if side == Buy then Share(Equity(s, bars[i].open), c.allocation) else 0.0, c.cost);
      Done(State(filled.cash, filled.quantity,
                 if side == Buy then Some(Position(filled.notional + filled.fee, i)) else None,
                 if side == Buy then s.entrySignal else None, None, s.pausedAt, s.fees + filled.fee, s.turnover + filled.notional, s.exposure,
                 if side == Sell && s.position.Some? then s.results + [filled.notional - filled.fee - s.position.value.cost] else s.results,
                 s.values, s.log + [Trade(i, side, filled.notional, filled.fee, filled.cash, filled.quantity)]))
  }

  function Fraction(quantity: real, close: real, equity: real): real { if equity > 0.0 then Worth(quantity, close) / equity else 0.0 }

  /** Whether the entry rule of a family holds at a close. */
  function Enters(bars: seq<Bar>, family: Family, i: nat): bool
    requires WARMUP <= i < |bars|
  {
    if family == Momentum then bars[i].close > bars[i - WARMUP].close
    else bars[i].close <= bars[i - REVERSAL_LOOKBACK].close * REVERSAL_DROP
  }

  function Exits(s: State, bars: seq<Bar>, family: Family, i: nat): Outcome<bool, Fault>
    requires WARMUP <= i < |bars|
  {
    if family == Momentum then Done(bars[i].close <= bars[i - WARMUP].close)
    else if s.entrySignal.None? || s.position.None? then Thrown(NoPosition)
    else Done(bars[i].close >= s.entrySignal.value || i - s.position.value.index + 1 >= REVERSAL_HOURS)
  }

  /** What the close of a bar decides, given the drawdown there. */
  function Decide(s: State, bars: seq<Bar>, c: Screen, i: nat, drawdown: real): Outcome<State, Fault>
    requires WARMUP <= i < |bars|
  {
    if c.benchmark then Done(s)
    else if drawdown >= PAUSE then
      Done(s.(pausedAt := if s.pausedAt.None? then Some(i) else s.pausedAt, pending := if s.quantity != 0.0 then Some(Sell) else s.pending))
    else if s.quantity != 0.0 then
      var exit :- Exits(s, bars, c.family, i);
      Done(if exit then s.(pending := Some(Sell)) else s)
    else if s.pausedAt.None? && i < |bars| - 2 && Enters(bars, c.family, i) then
      Done(s.(pending := Some(Buy), entrySignal := Some(bars[i].close)))
    else Done(s)
  }

  /** The fraction below the running peak. */
  function Below(values: seq<real>): real
    requires values != []
  {
    PeakAtLeast(INITIAL_CASH, values);
    (PeakFrom(INITIAL_CASH, values) - values[|values| - 1]) / PeakFrom(INITIAL_CASH, values)
  }

  function CloseBar(s: State, bars: seq<Bar>, c: Screen, i: nat): Outcome<State, Fault>
    requires WARMUP <= i < |bars|
  {
    if i + 1 == |bars| then Done(s)
    else
      var equity := Equity(s, bars[i].close);
      var values := s.values + [equity];
      Decide(s.(values := values, exposure := s.exposure + Fraction(s.quantity, bars[i].close, equity)), bars, c, i, Below(values))
  }

  /** The state after `n` scored bars. */
  function Replay(bars: seq<Bar>, c: Screen, n: nat): Outcome<State, Fault>
    requires WARMUP + n <= |bars|
  {
    if n == 0 then Done(Initial) else
    var s :- Replay(bars, c, n - 1);
    var o :- OpenBar(s, bars, c, WARMUP + n - 1);
    CloseBar(o, bars, c, WARMUP + n - 1)
  }

  datatype Report = Report(netReturn: real, maxDrawdown: real, underwater: nat, longest: nat, averageExposure: real, turnover: real,
                           fees: real, roundTrips: nat, largest: real, excludingLargest: real)

  function LargestOf(results: seq<real>): real
    requires results != []
  {
    if |results| == 1 then results[0] else Max(LargestOf(results[..|results| - 1]), results[|results| - 1])
  }

  function Largest(results: seq<real>): real { if results == [] then 0.0 else LargestOf(results) }

  function ReportOf(s: State): Report
  {
    var hours := |s.values|;
    Report((s.cash - INITIAL_CASH) / INITIAL_CASH, WorstFall(INITIAL_CASH, s.values + [s.cash]),
           UnderwaterHours(INITIAL_CASH, s.values, hours), LongestRun(INITIAL_CASH, s.values, hours),
           if hours == 0 then 0.0 else s.exposure / hours as real, s.turnover / INITIAL_CASH, s.fees, |s.results|,
           Largest(s.results), s.cash - INITIAL_CASH - Largest(s.results))
  }

  function Completed(bars: seq<Bar>, c: Screen): Outcome<State, Fault>
    requires Ready(bars, c)
  {
    var s :- Replay(bars, c, |bars| - WARMUP);
    if s.quantity != 0.0 then Thrown(NotLiquidated) else Done(s)
  }

  lemma {:induction false} ThrownStays(bars: seq<Bar>, c: Screen, i: nat, j: nat)
    requires i <= j && WARMUP + j <= |bars| && Replay(bars, c, i).Thrown?
    ensures Replay(bars, c, j) == Replay(bars, c, i)
  {
    hide OpenBar, CloseBar;
    if i < j {
      ThrownStays(bars, c, i, j - 1);
    }
  }

  // ----- the program's code

  method FillOrder(cash: real, quantity: real, side: Side, opening: real, allocation: real, c: Cost) returns (r: Outcome<Filled, Fault>)
    ensures r == Fill(cash, quantity, side, opening, allocation, c)
  {
    hide PriceOf, Gross, Bought, Worth, FeeOn;
    var price := PriceOf(side, opening, c);
    if side == Buy {
      var gross := Gross(price, c.fee);
      if gross == 0.0 {
        return Thrown(DivisionByZero);
      }
      var bought := Bought(allocation, gross);
      if bought <= 0.0 {
        return Thrown(BelowUnit);
      }
      var notional := Worth(bought, price);
      var fee := FeeOn(bought, price, c.fee);
      if notional + fee > cash {
        return Thrown(ExceedsCash);
      }
      return Done(Filled(cash - notional - fee, quantity + bought, fee, notional));
    }
    var notional := Worth(quantity, price);
    var fee := FeeOn(quantity, price, c.fee);
    return Done(Filled(cash + notional - fee, 0.0, fee, notional));
  }

  /** The running marks of the loop. */
  class Marks {
    var peak: real
    var drawdown: real
    var underwater: nat
    var longest: nat
    var total: nat
    ghost var values: seq<real>

    ghost predicate Valid()
      reads this
    {
      && peak == PeakFrom(INITIAL_CASH, values) && peak > 0.0
      && drawdown == WorstFall(INITIAL_CASH, values)
      && underwater == OpenRun(INITIAL_CASH, values, |values|)
      && longest == LongestRun(INITIAL_CASH, values, |values|)
      && total == UnderwaterHours(INITIAL_CASH, values, |values|)
    }

    constructor ()
      ensures Valid() && values == []
    {
      peak, drawdown, underwater, longest, total, values := INITIAL_CASH, 0.0, 0, 0, 0, [];
    }

    /** Mark one close; returns the fraction below the peak. */
    method Mark(equity: real) returns (below: real)
      requires Valid()
      modifies this
      ensures Valid() && values == old(values) + [equity] && below == Below(values)
    {
      ghost var before, after := values, values + [equity];
      assert after[..|before|] == before;
      PeakAtLeast(INITIAL_CASH, before);
      HoursStay(before, |before|, |after|);
      peak := Max(peak, equity);
      below := (peak - equity) / peak;
      drawdown := Max(drawdown, below);
      if equity < peak {
        underwater := underwater + 1;
        total := total + 1;
        longest := if underwater > longest then underwater else longest;
      } else {
        underwater := 0;
      }
      values := after;
    }

    /** The last mark, against the peak so far. */
    method Last(cash: real)
      requires Valid()
      modifies this`drawdown
      ensures drawdown == WorstFall(INITIAL_CASH, values + [cash])
    {
      assert (values + [cash])[..|values|] == values;
      PeakAtLeast(INITIAL_CASH, values);
      WorstFallNonnegative(INITIAL_CASH, values);
      LastFall(peak, cash);
      drawdown := Max(drawdown, (peak - cash) / peak);
    }
  }

  /** Not raising the peak for the last mark changes nothing: a new high is no fall. */
  lemma LastFall(peak: real, cash: real)
    requires peak > 0.0
    ensures cash > peak ==> (peak - cash) / peak < 0.0 && (cash - cash) / cash == 0.0
  {
    if cash > peak {
      QuotientAtMost(peak - cash, peak, 0.0);
      DivMul(peak - cash, peak);
      DivMul(0.0, cash);
    }
  }

  /** With every hour counted, the underwater figures do not depend on the length given. */
  lemma {:induction false} HoursStay(values: seq<real>, m: nat, n: nat)
    requires |values| <= m && |values| <= n
    ensures OpenRun(INITIAL_CASH, values, m) == OpenRun(INITIAL_CASH, values, n)
    ensures LongestRun(INITIAL_CASH, values, m) == LongestRun(INITIAL_CASH, values, n)
    ensures UnderwaterHours(INITIAL_CASH, values, m) == UnderwaterHours(INITIAL_CASH, values, n)
  {
    if values != [] {
      HoursStay(values[..|values| - 1], m, n);
    }
  }

  method DecideClose(s: State, bars: seq<Bar>, c: Screen, i: nat, drawdown: real) returns (r: Outcome<State, Fault>)
    requires WARMUP <= i < |bars|
    ensures r == Decide(s, bars, c, i, drawdown) && (r.Done? ==> r.value.values == s.values)
  {
    hide Enters;
    var pending, pausedAt, entrySignal := s.pending, s.pausedAt, s.entrySignal;
    if c.benchmark {
      return Done(s);
    }
    if drawdown >= PAUSE {
      if pausedAt.None? {
        pausedAt := Some(i);
      }
      if s.quantity != 0.0 {
        pending := Some(Sell);
      }
      return Done(s.(pausedAt := pausedAt, pending := pending));
    }
    if s.quantity != 0.0 {
      var exit := Exits(s, bars, c.family, i);
      if exit.Thrown? {
        return Thrown(exit.fault);
      }
      if exit.value {
        pending := Some(Sell);
      }
    } else if pausedAt.None? && i < |bars| - 2 {
      var enter := Enters(bars, c.family, i);
      if enter {
        pending := Some(Buy);
        entrySignal := Some(bars[i].close);
      }
    }
    return Done(s.(pending := pending, entrySignal := entrySignal));
  }

  method SettleOpen(s: State, bars: seq<Bar>, c: Screen, i: nat) returns (r: Outcome<State, Fault>)
    requires WARMUP <= i < |bars|
    ensures r == OpenBar(s, bars, c, i) && (r.Done? ==> r.value.values == s.values)
  {
    hide Fill, Equity, Share;
    var pending := s.pending;
    if i == |bars| - 1 {
      pending := if s.quantity != 0.0 then Some(Sell) else None;
    }
    if c.benchmark && i == WARMUP {
      pending := Some(Buy);
    }
    if pending.None? {
      return Done(s.(pending := None));
    }
    var position, entrySignal, results := s.position, s.entrySignal, s.results;
    var side := pending.value;
    var allocation := if side == Buy then Share(Equity(s, bars[i].open), c.allocation) else 0.0;
    var filled := FillOrder(s.cash, s.quantity, side, bars[i].open, allocation, c.cost);
    if filled.Thrown? {
      return Thrown(filled.fault);
    }
    var f := filled.value;
    if side == Buy {
      position := Some(Position(f.notional + f.fee, i));
    } else {
      if position.Some? {
        results := results + [f.notional - f.fee - position.value.cost];
      }
      position, entrySignal := None, None;
    }
    return Done(State(f.cash, f.quantity, position, entrySignal, None, s.pausedAt, s.fees + f.fee, s.turnover + f.notional, s.exposure,
                      results, s.values, s.log + [Trade(i, side, f.notional, f.fee, f.cash, f.quantity)]));
  }

  method CheckHours(bars: seq<Bar>) returns (ok: bool)
    ensures ok <==> forall i: nat, j: nat :: i + 1 == j < |bars| ==> bars[j].start == bars[i].start + 1
  {
    for k := 0 to |bars|
      invariant forall i: nat, j: nat :: i + 1 == j < k ==> bars[j].start == bars[i].start + 1
    {
      if k > 0 && bars[k].start != bars[k - 1].start + 1 {
        return false;
      }
    }
    return true;
  }

  /** The whole screen of one partition. */
  method RunScreen(bars: seq<Bar>, c: Screen) returns (r: Outcome<Report, Fault>)
    ensures r.Done? ==> Ready(bars, c)
    ensures Ready(bars, c) ==>
      r == if Completed(bars, c).Thrown? then Thrown(Completed(bars, c).fault) else Done(ReportOf(Completed(bars, c).value))
  {
    hide OpenBar, Decide, Worth, Equity, PeakFrom, WorstFall, OpenRun, LongestRun, UnderwaterHours, Below;
    if c.family == Unregistered && !c.benchmark {
      return Thrown(UnregisteredFamily);
    }
    if |bars| < WARMUP + 3 || !(0.0 < c.allocation <= 1.0) {
      return Thrown(Incomplete);
    }
    var hours := CheckHours(bars);
    if !hours {
      return Thrown(Noncontiguous);
    }
    var s := Initial;
    var marks := new Marks();
    for i := WARMUP to |bars|
      invariant Replay(bars, c, i - WARMUP) == Done(s)
      invariant fresh(marks) && marks.Valid() && marks.values == s.values
    {
      var settled := SettleOpen(s, bars, c, i);
      if settled.Thrown? {
        ThrownStays(bars, c, i - WARMUP + 1, |bars| - WARMUP);
        return Thrown(settled.fault);
      }
      s := settled.value;
      if i != |bars| - 1 {
        var equity := Equity(s, bars[i].close);
        var drawdown := marks.Mark(equity);
        var share := if equity > 0.0 then Worth(s.quantity, bars[i].close) / equity else 0.0;
        var decided := DecideClose(s.(values := s.values + [equity], exposure := s.exposure + share),
                                   bars, c, i, drawdown);
        if decided.Thrown? {
          ThrownStays(bars, c, i - WARMUP + 1, |bars| - WARMUP);
          return Thrown(decided.fault);
        }
        s := decided.value;
      }
    }
    if s.quantity != 0.0 {
      return Thrown(NotLiquidated);
    }
    marks.Last(s.cash);
    var largest := if s.results == [] then 0.0 else LargestOf(s.results);
    return Done(Report((s.cash - INITIAL_CASH) / INITIAL_CASH, marks.drawdown, marks.total, marks.longest,
                       if |s.values| == 0 then 0.0 else s.exposure / |s.values| as real, s.turnover / INITIAL_CASH, s.fees, |s.results|,
                       largest, s.cash - INITIAL_CASH - largest));
  }
}
