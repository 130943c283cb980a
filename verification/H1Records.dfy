/** What the four metric records of an H1 result say in plain arithmetic: the
    account of the strategy, of cash, and of the two holds. */
module H1Records {
  import opened Exact
  import opened Drawdown
  import opened H1Policy
  import opened H1Replay
  import opened H1Accounting
  import opened H1Results

  // ----- one record of a marked account

  function Total(s: seq<real>): real { if s == [] then 0.0 else Total(s[..|s| - 1]) + s[|s| - 1] }

  /** A fall from one point, the opening 10000 included, to a later one, as a fraction of the first. */
  function FallBetween(equities: seq<real>, i: nat, j: nat): real
    requires i <= j <= |equities| && (i > 0 ==> equities[i - 1] != 0.0)
  {
    var high := if i == 0 then 10000.0 else equities[i - 1];
    var low := if j == 0 then 10000.0 else equities[j - 1];
    (high - low) / high
  }

  /** The figures of a record over its equities, of which the last is the liquidation and not an hour. */
  ghost predicate CurveTold(m: AccountMetrics, equities: seq<real>, exposures: seq<real>)
    requires |equities| == |exposures| + 1 && forall k :: 0 <= k < |equities| ==> equities[k] > 0.0
  {
    var hours := |exposures|;
    && (forall i: nat, j: nat :: i <= j <= |equities| ==> FallBetween(equities, i, j) <= m.maximumDrawdown)
    && (exists i: nat, j: nat :: i <= j <= |equities| && FallBetween(equities, i, j) == m.maximumDrawdown)
    && m.underwaterHours == |set k: nat | k < |equities| && k < hours && Under(10000.0, equities, k)|
    && (exists a: nat, b: nat :: Block(10000.0, equities, hours, a, b) && b - a == m.longestUnderwaterHours)
    && (forall a: nat, b: nat :: Block(10000.0, equities, hours, a, b) ==> b - a <= m.longestUnderwaterHours)
    && (hours > 0 ==> m.averageGrossExposure * hours as real == Total(exposures))
  }

  ghost predicate MoneyTold(m: AccountMetrics, final: real, traded: real, fees: real, trips: nat, largest: real)
  {
    && m.finalCash == final && m.netReturn * 10000.0 == final - 10000.0
    && m.turnover * 10000.0 == traded && m.fees == fees && m.closedRoundTrips == trips
    && m.largestRoundTrip == largest && m.netWithoutLargest == final - 10000.0 - largest
  }

  lemma {:induction false} TotalIs(s: seq<real>)
    ensures Total(s) == Sum(s)
  {
    if s != [] {
      TotalIs(s[..|s| - 1]);
    }
  }

  lemma FallIs(equities: seq<real>, i: nat, j: nat)
    requires i <= j <= |equities| && forall k :: 0 <= k < |equities| ==> equities[k] > 0.0
    ensures FallBetween(equities, i, j) == Fall(STARTING_CASH, equities, i, j)
  {}

  lemma CurveIsTold(final: real, equities: seq<real>, exposures: seq<real>, turnover: real, fees: real, trips: nat, largest: real)
    requires ValidMarks(equities, exposures)
    ensures CurveTold(MetricsOf(final, equities, exposures, turnover, fees, trips, largest), equities, exposures)
  {
    hide Fall, FallBetween, WorstFall, UnderwaterHours, LongestRun, Block, Sum, Total;
    WorstFallIsMaximum(STARTING_CASH, equities);
    UnderwaterCounts(STARTING_CASH, equities, |exposures|);
    LongestIsLongest(STARTING_CASH, equities, |exposures|);
    forall i: nat, j: nat | i <= j <= |equities|
      ensures FallBetween(equities, i, j) == Fall(STARTING_CASH, equities, i, j)
    {
      FallIs(equities, i, j);
    }
    var i: nat, j: nat :| i <= j <= |equities| && Fall(STARTING_CASH, equities, i, j) == WorstFall(STARTING_CASH, equities);
    assert FallBetween(equities, i, j) == WorstFall(STARTING_CASH, equities);
    TotalIs(exposures);
    if |exposures| > 0 {
      DivMul(Sum(exposures), |exposures| as real);
    }
  }

  lemma MoneyIsTold(final: real, equities: seq<real>, exposures: seq<real>, traded: real, fees: real, trips: nat, largest: real)
    requires equities != []
    ensures MoneyTold(MetricsOf(final, equities, exposures, traded / STARTING_CASH, fees, trips, largest), final, traded, fees, trips, largest)
  {
    hide WorstFall, UnderwaterHours, LongestRun, Average;
    DivMul(final - STARTING_CASH, STARTING_CASH);
    DivMul(traded, STARTING_CASH);
  }

  // ----- the strategy

  function TradedIn(fills: seq<Fill>): real
  {
    if fills == [] then 0.0 else TradedIn(fills[..|fills| - 1]) + fills[|fills| - 1].units * fills[|fills| - 1].price
  }

  /** What the `j`-th entry and the exit after it brought. */
  function TripResult(fills: seq<Fill>, j: nat): real
    requires 2 * j + 1 < |fills|
  {
    var entry, exit := fills[2 * j], fills[2 * j + 1];
    (exit.units * exit.price - exit.fee) - (entry.units * entry.price + entry.fee)
  }

  ghost predicate LargestTold(largest: real, fills: seq<Fill>, trips: nat)
    requires 2 * trips <= |fills|
  {
    && (trips == 0 ==> largest == 0.0)
    && (trips > 0 ==> exists j: nat :: j < trips && TripResult(fills, j) == largest)
    && forall j: nat :: j < trips ==> TripResult(fills, j) <= largest
  }

  ghost predicate BooksTold(b: Books, fills: seq<Fill>)
  {
    && b.trips == |fills| / 2 && (b.entryCost.Some? <==> |fills| % 2 == 1)
    && (b.entryCost.Some? ==> b.entryCost.value == fills[|fills| - 1].units * fills[|fills| - 1].price + fills[|fills| - 1].fee)
    && LargestTold(b.largest, fills, b.trips)
  }

  lemma LargestStays(largest: real, fills: seq<Fill>, f: Fill, trips: nat)
    requires 2 * trips <= |fills| && LargestTold(largest, fills, trips)
    ensures LargestTold(largest, fills + [f], trips)
  {
    hide TripResult;
    forall j: nat | j < trips
      ensures TripResult(fills + [f], j) == TripResult(fills, j)
    {
      TripStays(fills, f, j);
    }
  }

  lemma TripStays(fills: seq<Fill>, f: Fill, j: nat)
    requires 2 * j + 1 < |fills|
    ensures TripResult(fills + [f], j) == TripResult(fills, j)
  {}

  /** A trip more: the larger of the largest so far and its result. */
  lemma LargestGrows(largest: real, fills: seq<Fill>, trips: nat, result: real)
    requires 2 * trips + 1 < |fills| && LargestTold(largest, fills, trips) && result == TripResult(fills, trips)
    ensures LargestTold(if trips == 0 || result > largest then result else largest, fills, trips + 1)
  {
    hide TripResult;
  }

  lemma {:induction false} BooksAreTold(fills: seq<Fill>)
    requires BookAll(fills).Some?
    ensures BooksTold(BookAll(fills).value, fills)
  {
    if fills != [] {
      var front, f := fills[..|fills| - 1], fills[|fills| - 1];
      BooksAreTold(front);
      assert fills == front + [f];
      var b := BookAll(front).value;
      LargestStays(b.largest, front, f, b.trips);
      if f.intent == ExitToCash {
        var result := f.units * f.price - f.fee - b.entryCost.value;
        assert front[|front| - 1] == fills[|fills| - 2];
        LargestGrows(b.largest, fills, b.trips, result);
      }
    }
  }

  lemma {:induction false} TradedIs(fills: seq<Fill>)
    ensures TradedIn(fills) == Sum(Notionals(fills))
  {
    if fills != [] {
      var front := fills[..|fills| - 1];
      TradedIs(front);
      assert Notionals(fills)[..|fills| - 1] == Notionals(front);
    }
  }

  ghost predicate StrategyTold(m: AccountMetrics, run: ReplayResult)
  {
    exists equities: seq<real>, exposures: seq<real> ::
      && |exposures| == |run.marks| && |equities| == |run.marks| + 1 && equities[|run.marks|] == run.cash
      && (forall k: nat :: k < |run.marks| ==> equities[k] == run.marks[k].equity && exposures[k] == run.marks[k].exposure)
      && (forall k :: 0 <= k < |equities| ==> equities[k] > 0.0)
      && CurveTold(m, equities, exposures)
      && LargestTold(m.largestRoundTrip, run.fills, |run.fills| / 2)
      && MoneyTold(m, run.cash, TradedIn(run.fills), FeesPaid(run.fills), |run.fills| / 2, m.largestRoundTrip)
  }

  // ----- the holds

  /** The units that the smaller of an allocation and the whole cash buys at the first scored opening. */
  ghost predicate HeldUnits(units: real, buy: real, fee: real, allocation: real)
  {
    && units > 0.0 && (units * 100000000.0).Floor as real == units * 100000000.0
    && units * buy <= 10000.0 * allocation && units * GrossOf(buy, fee) <= 10000.0
    && ((units + 0.00000001) * buy > 10000.0 * allocation || (units + 0.00000001) * GrossOf(buy, fee) > 10000.0)
  }

  function GrossOf(price: real, fee: real): real { price * (1.0 + fee) }

  /** Bought at the first scored opening, marked at every close, sold at the last opening. */
  datatype HoldRun = HoldRun(units: real, buy: real, buyFee: real, sell: real, sellFee: real, cash: real, final: real)

  ghost predicate HoldRunTold(h: HoldRun, bars: seq<Bar>, cost: Cost, allocation: real)
    requires |bars| >= 170
  {
    && HeldUnits(h.units, h.buy, cost.fee, allocation)
    && h.buy == bars[168].open * (1.0 + cost.adverse) && h.sell == bars[|bars| - 1].open * (1.0 - cost.adverse)
    && h.buyFee == h.units * h.buy * cost.fee && h.sellFee == h.units * h.sell * cost.fee
    && h.cash == 10000.0 - h.units * h.buy - h.buyFee && h.final == h.cash + h.units * h.sell - h.sellFee
  }

  ghost predicate HoldCurveTold(h: HoldRun, bars: seq<Bar>, equities: seq<real>, exposures: seq<real>)
    requires |bars| >= 170
  {
    && |exposures| == |bars| - 169 && |equities| == |bars| - 168 && equities[|exposures|] == h.final
    && (forall k :: 0 <= k < |equities| ==> equities[k] > 0.0)
    && forall k: nat :: k < |exposures| ==>
         equities[k] == h.cash + h.units * bars[168 + k].close && exposures[k] * equities[k] == h.units * bars[168 + k].close
  }

  ghost predicate HoldTold(m: AccountMetrics, bars: seq<Bar>, cost: Cost, allocation: real)
    requires |bars| >= 170
  {
    exists h: HoldRun, equities: seq<real>, exposures: seq<real> ::
      && HoldRunTold(h, bars, cost, allocation) && HoldCurveTold(h, bars, equities, exposures)
      && CurveTold(m, equities, exposures)
      && MoneyTold(m, h.final, h.units * h.buy + h.units * h.sell, h.buyFee + h.sellFee, 1, h.final - 10000.0)
  }

  lemma UnitsAreHeld(buy: real, fee: real, allocation: real)
    requires buy > 0.0 && Gross(buy, fee) > 0.0 && BenchmarkUnits(buy, fee, allocation) > 0.0
    ensures HeldUnits(BenchmarkUnits(buy, fee, allocation), buy, fee, allocation)
  {
    var gross := Gross(buy, fee);
    var x, y := STARTING_CASH * allocation / buy, STARTING_CASH / gross;
    var units := BenchmarkUnits(buy, fee, allocation);
    FloorIsWhole(Min(x, y));
    GrossIs(buy, fee);
    hide Gross, FloorUnits, BenchmarkUnits, GrossOf;
    Within(units, buy, STARTING_CASH * allocation);
    Within(units, gross, STARTING_CASH);
  }

  lemma GrossIs(price: real, fee: real)
    ensures GrossOf(price, fee) == Gross(price, fee)
  {}

  lemma FloorIsWhole(x: real)
    ensures var q := FloorUnits(x * UNIT_SCALE); q <= x < q + 0.00000001 && (q * 100000000.0).Floor as real == q * 100000000.0
  {
    var n := (x * UNIT_SCALE).Floor;
    assert FloorUnits(x * UNIT_SCALE) * 100000000.0 == n as real;
  }

  lemma Within(units: real, price: real, amount: real)
    requires price > 0.0
    ensures units <= amount / price ==> units * price <= amount
    ensures amount / price < units + 0.00000001 ==> amount < (units + 0.00000001) * price
  {
    DivMul(amount, price);
    if units <= amount / price {
      MulMono(units, amount / price, price);
    }
    if amount >= (units + 0.00000001) * price {
      QuotientAtLeast(amount, price, units + 0.00000001);
    }
  }

  lemma ProductsAre(units: real, price: real, rate: real)
    ensures Worth(units, price) == units * price && FeeOn(units, price, rate) == units * price * rate
  {}

  lemma SumOfWorths(units: real, buy: real, sell: real)
    ensures Worth(units, buy + sell) == units * buy + units * sell
  {}

  lemma HoldMarksAre(bars: seq<Bar>, cash: real, units: real, k: nat)
    requires |bars| >= 170 && k < |bars| - 169 && 0.0 !in HoldMarks(bars, cash, units)
    ensures HoldMarks(bars, cash, units)[k] == cash + units * bars[168 + k].close
    ensures HoldExposures(bars, cash, units)[k] * HoldMarks(bars, cash, units)[k] == units * bars[168 + k].close
  {
    assert HoldMarks(bars, cash, units)[k] != 0.0;
    DivMul(units * bars[168 + k].close, cash + units * bars[168 + k].close);
  }

  lemma PricesAreTold(open: real, cost: Cost)
    requires open > 0.0 && ValidCost(cost)
    ensures Price(open, true, cost).Some? && Price(open, true, cost).value == open * (1.0 + cost.adverse)
    ensures Price(open, false, cost).Some? && Price(open, false, cost).value == open * (1.0 - cost.adverse)
  {}

  lemma FeeIs(units: real, price: real, cost: Cost)
    ensures Fee(units, price, cost).Some? ==> Fee(units, price, cost).value == units * price * cost.fee
  {}

  /** The pieces of a completed hold. */
  lemma HoldPieces(bars: seq<Bar>, start: int, end: int, cost: Cost, allocation: real) returns (h: HoldRun)
    requires ValidPartition(bars, start, end) && ValidCost(cost) && Benchmark(bars, cost, allocation).Some?
    ensures HoldRunTold(h, bars, cost, allocation) && 0.0 !in HoldMarks(bars, h.cash, h.units)
    ensures var marks, exposures := HoldMarks(bars, h.cash, h.units), HoldExposures(bars, h.cash, h.units);
      && ValidMarks(marks + [h.final], exposures)
      && Benchmark(bars, cost, allocation).value == MetricsOf(h.final, marks + [h.final], exposures,
           Worth(h.units, h.buy + h.sell) / STARTING_CASH, h.buyFee + h.sellFee, 1, h.final - STARTING_CASH)
  {
    hide BenchmarkUnits, HoldMarks, HoldExposures, ValidMarks, MetricsOf, HeldUnits, Gross, Fee, Price, Worth;
    assert ValidBar(bars, start, 168) && ValidBar(bars, start, |bars| - 1);
    PricesAreTold(bars[168].open, cost);
    PricesAreTold(bars[|bars| - 1].open, cost);
    var buy, sell := Price(bars[168].open, true, cost).value, Price(bars[|bars| - 1].open, false, cost).value;
    var units := BenchmarkUnits(buy, cost.fee, allocation);
    UnitsAreHeld(buy, cost.fee, allocation);
    FeeIs(units, buy, cost);
    FeeIs(units, sell, cost);
    ProductsAre(units, buy, cost.fee);
    ProductsAre(units, sell, cost.fee);
    var buyFee, sellFee := Fee(units, buy, cost).value, Fee(units, sell, cost).value;
    var cash := STARTING_CASH - Worth(units, buy) - buyFee;
    h := HoldRun(units, buy, buyFee, sell, sellFee, cash, cash + Worth(units, sell) - sellFee);
    HoldShape(h, bars, cost, allocation);
  }

  lemma HoldShape(h: HoldRun, bars: seq<Bar>, cost: Cost, allocation: real)
    requires |bars| >= 170 && HeldUnits(h.units, h.buy, cost.fee, allocation)
    requires h.buy == bars[168].open * (1.0 + cost.adverse) && h.sell == bars[|bars| - 1].open * (1.0 - cost.adverse)
    requires h.buyFee == h.units * h.buy * cost.fee && h.sellFee == h.units * h.sell * cost.fee
    requires h.cash == STARTING_CASH - Worth(h.units, h.buy) - h.buyFee && h.final == h.cash + Worth(h.units, h.sell) - h.sellFee
    ensures HoldRunTold(h, bars, cost, allocation)
  {
    hide HeldUnits;
  }

  lemma HoldIsTold(bars: seq<Bar>, start: int, end: int, cost: Cost, allocation: real)
    requires ValidPartition(bars, start, end) && ValidCost(cost) && Benchmark(bars, cost, allocation).Some?
    ensures HoldTold(Benchmark(bars, cost, allocation).value, bars, cost, allocation)
  {
    hide Benchmark, HoldMarks, HoldExposures, HoldRunTold, CurveTold, MoneyTold, MetricsOf, Worth;
    var h := HoldPieces(bars, start, end, cost, allocation);
    var marks, exposures := HoldMarks(bars, h.cash, h.units), HoldExposures(bars, h.cash, h.units);
    HoldLengths(bars, h.cash, h.units);
    var equities := marks + [h.final];
    forall k: nat | k < |exposures|
      ensures equities[k] == h.cash + h.units * bars[168 + k].close && exposures[k] * equities[k] == h.units * bars[168 + k].close
    {
      HoldMarksAre(bars, h.cash, h.units, k);
    }
    var fees := h.buyFee + h.sellFee;
    CurveIsTold(h.final, equities, exposures, Worth(h.units, h.buy + h.sell) / STARTING_CASH, fees, 1, h.final - STARTING_CASH);
    MoneyIsTold(h.final, equities, exposures, Worth(h.units, h.buy + h.sell), fees, 1, h.final - STARTING_CASH);
    HoldMoney(Benchmark(bars, cost, allocation).value, h, Worth(h.units, h.buy + h.sell));
    assert HoldCurveTold(h, bars, equities, exposures);
    HoldWitness(Benchmark(bars, cost, allocation).value, bars, cost, allocation, h, equities, exposures);
  }

  lemma HoldWitness(m: AccountMetrics, bars: seq<Bar>, cost: Cost, allocation: real, h: HoldRun, equities: seq<real>, exposures: seq<real>)
    requires |bars| >= 170 && HoldRunTold(h, bars, cost, allocation) && HoldCurveTold(h, bars, equities, exposures)
    requires CurveTold(m, equities, exposures)
    requires MoneyTold(m, h.final, h.units * h.buy + h.units * h.sell, h.buyFee + h.sellFee, 1, h.final - 10000.0)
    ensures HoldTold(m, bars, cost, allocation)
  {
    hide HoldRunTold, CurveTold;
  }

  lemma HoldMoney(m: AccountMetrics, h: HoldRun, traded: real)
    requires traded == Worth(h.units, h.buy + h.sell) && MoneyTold(m, h.final, traded, h.buyFee + h.sellFee, 1, h.final - STARTING_CASH)
    ensures MoneyTold(m, h.final, h.units * h.buy + h.units * h.sell, h.buyFee + h.sellFee, 1, h.final - 10000.0)
  {
    SumOfWorths(h.units, h.buy, h.sell);
  }

  lemma HoldLengths(bars: seq<Bar>, cash: real, units: real)
    requires |bars| >= 170 && 0.0 !in HoldMarks(bars, cash, units)
    ensures |HoldMarks(bars, cash, units)| == |HoldExposures(bars, cash, units)| == |bars| - 169
  {}

  // ----- the four records

  /** The cash record: nothing is ever traded, held, or lost. */
  ghost predicate CashTold(m: AccountMetrics)
  {
    MoneyTold(m, 10000.0, 0.0, 0.0, 0, 0.0) && m.maximumDrawdown == 0.0 && m.underwaterHours == m.longestUnderwaterHours == 0
    && m.averageGrossExposure == 0.0
  }

  lemma {:induction false} FlatCurve(n: nat, hours: nat)
    ensures var e := seq(n, _ => STARTING_CASH);
      PeakFrom(STARTING_CASH, e) == STARTING_CASH && WorstFall(STARTING_CASH, e) == 0.0
      && UnderwaterHours(STARTING_CASH, e, hours) == OpenRun(STARTING_CASH, e, hours) == LongestRun(STARTING_CASH, e, hours) == 0
  {
    if n > 0 {
      FlatCurve(n - 1, hours);
      var e := seq(n, _ => STARTING_CASH);
      assert e[..n - 1] == seq(n - 1, _ => STARTING_CASH);
    }
  }

  lemma {:induction false} NothingHeld(n: nat)
    ensures Sum(seq(n, _ => 0.0)) == 0.0
  {
    if n > 0 {
      NothingHeld(n - 1);
      assert seq(n, _ => 0.0)[..n - 1] == seq(n - 1, _ => 0.0);
    }
  }

  lemma CashIsTold(hours: nat)
    ensures CashTold(CashMetrics(hours))
  {
    FlatCurve(hours + 1, hours);
    NothingHeld(hours);
  }

  lemma StrategyIsTold(bars: seq<Bar>, start: int, end: int, cost: Cost)
    requires ValidCost(cost) && ValidPartition(bars, start, end) && RunValid(bars, cost).Done?
    requires AnalysisOf(bars, start, RunValid(bars, cost).value, cost).Some?
    ensures StrategyTold(AnalysisOf(bars, start, RunValid(bars, cost).value, cost).value.strategy, RunValid(bars, cost).value)
  {
    hide RunValid, BookAll, Benchmark, MetricsOf, Sum, Notionals, FillFees, CurveTold, MoneyTold, LargestTold, FeesPaid, TradedIn, CashMetrics;
    var run := RunValid(bars, cost).value;
    var equities, exposures := Equities(run.marks) + [run.cash], Exposures(run.marks);
    var b := BookAll(run.fills).value;
    BooksAreTold(run.fills);
    TradedIs(run.fills);
    RunFees(bars, start, end, cost);
    CurveIsTold(run.cash, equities, exposures, Sum(Notionals(run.fills)) / STARTING_CASH, run.totalFees, b.trips, b.largest);
    MoneyIsTold(run.cash, equities, exposures, Sum(Notionals(run.fills)), run.totalFees, b.trips, b.largest);
    RecordFields(run.cash, equities, exposures, Sum(Notionals(run.fills)) / STARTING_CASH, run.totalFees, b.trips, b.largest);
  }

  lemma RecordFields(final: real, equities: seq<real>, exposures: seq<real>, turnover: real, fees: real, trips: nat, largest: real)
    requires equities != []
    ensures MetricsOf(final, equities, exposures, turnover, fees, trips, largest).largestRoundTrip == largest
  {
    hide WorstFall, UnderwaterHours, LongestRun, Average;
  }

  lemma RunFees(bars: seq<Bar>, start: int, end: int, cost: Cost)
    requires ValidCost(cost) && ValidPartition(bars, start, end) && RunValid(bars, cost).Done?
    ensures RunValid(bars, cost).value.totalFees == FeesPaid(RunValid(bars, cost).value.fills)
  {
    hide RunValid, FillTold, MarkTold, DecisionTold;
    ResultIsTold(bars, start, end, cost);
  }

  /** The four records the engine computes for a result of its own replay. */
  lemma {:induction false} RecordsAreTold(bars: seq<Bar>, start: int, end: int, cost: Cost)
    requires ValidCost(cost) && ValidPartition(bars, start, end) && RunValid(bars, cost).Done?
    requires AnalysisOf(bars, start, RunValid(bars, cost).value, cost).Some?
    ensures var run := RunValid(bars, cost).value; var m := AnalysisOf(bars, start, run, cost).value;
      && |bars| >= 170 && StrategyTold(m.strategy, run) && CashTold(m.cash)
      && HoldTold(m.quarterHold, bars, cost, 0.25) && HoldTold(m.fullHold, bars, cost, 1.0)
  {
    hide RunValid, BookAll, Benchmark, MetricsOf, Sum, Notionals, FillFees, StrategyTold, CashTold, HoldTold, CashMetrics;
    StrategyIsTold(bars, start, end, cost);
    CashIsTold(|RunValid(bars, cost).value.marks|);
    HoldIsTold(bars, start, end, cost, 0.25);
    HoldIsTold(bars, start, end, cost, 1.0);
  }
}
