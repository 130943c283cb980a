/** Trial metrics the engine side computes for a settled H1 replay: a second
    pass over its fills, its own account, and two buy-and-hold benchmarks. */
module H1Accounting {
  import opened Exact
  import opened Drawdown
  import opened H1Policy
  import opened H1Replay

  datatype AccountMetrics = AccountMetrics(finalCash: real, netReturn: real, maximumDrawdown: real,
                                           underwaterHours: nat, longestUnderwaterHours: nat,
                                           averageGrossExposure: real, turnover: real, fees: real,
                                           closedRoundTrips: nat, largestRoundTrip: real,
                                           netWithoutLargest: real)
  datatype TrialMetrics = TrialMetrics(strategy: AccountMetrics, cash: AccountMetrics,
                                       quarterHold: AccountMetrics, fullHold: AccountMetrics)

  function Average(s: seq<real>): real { if s == [] then 0.0 else Sum(s) / |s| as real }

  /** The metrics of a marked account; the last equity is the terminal liquidation. */
  function MetricsOf(final: real, equities: seq<real>, exposures: seq<real>, turnover: real, fees: real,
                     trips: nat, largest: real): AccountMetrics
    requires equities != []
  {
    var hours := |equities| - 1;
    AccountMetrics(final, (final - STARTING_CASH) / STARTING_CASH, WorstFall(STARTING_CASH, equities),
                   UnderwaterHours(STARTING_CASH, equities, hours), LongestRun(STARTING_CASH, equities, hours),
                   Average(exposures), turnover, fees, trips, largest, final - STARTING_CASH - largest)
  }

  predicate ValidMarks(equities: seq<real>, exposures: seq<real>)
  {
    && |equities| == |exposures| + 1
    && (forall k :: 0 <= k < |equities| ==> equities[k] > 0.0)
    && (forall k :: 0 <= k < |exposures| ==> 0.0 <= exposures[k] <= 1.0)
  }

  /** The running-peak loop; `None` is the program's exception. */
  method Metrics(final: real, equities: seq<real>, exposures: seq<real>, turnover: real, fees: real,
                 trips: nat, largest: real) returns (r: Option<AccountMetrics>)
    ensures r == if ValidMarks(equities, exposures)
                 then Some(MetricsOf(final, equities, exposures, turnover, fees, trips, largest)) else None
  {
    if |equities| != |exposures| + 1 || (exists k :: 0 <= k < |equities| && equities[k] <= 0.0) ||
       (exists k :: 0 <= k < |exposures| && (exposures[k] < 0.0 || exposures[k] > 1.0))
    {
      return None;
    }
    var hours := |equities| - 1;
    var peak, maximumDrawdown := STARTING_CASH, 0.0;
    var underwater, total, longest := 0, 0, 0;
    for index := 0 to |equities|
      invariant peak == PeakFrom(STARTING_CASH, equities[..index])
      invariant maximumDrawdown == WorstFall(STARTING_CASH, equities[..index])
      invariant underwater == OpenRun(STARTING_CASH, equities[..index], hours)
      invariant total == UnderwaterHours(STARTING_CASH, equities[..index], hours)
      invariant longest == LongestRun(STARTING_CASH, equities[..index], hours)
    {
      assert equities[..index + 1][..index] == equities[..index];
      PeakAtLeast(STARTING_CASH, equities[..index]);
      WorstFallNonnegative(STARTING_CASH, equities[..index]);
      var value := equities[index];
      if value >= peak {
        peak := value;
        underwater := 0;
      } else {
        if index < |equities| - 1 {
          underwater := underwater + 1;
          total := total + 1;
        }
        longest := if underwater > longest then underwater else longest;
        maximumDrawdown := Max(maximumDrawdown, (peak - value) / peak);
      }
    }
    assert equities[..|equities|] == equities;
    return Some(AccountMetrics(final, (final - STARTING_CASH) / STARTING_CASH, maximumDrawdown, total, longest,
                               Average(exposures), turnover, fees, trips, largest, final - STARTING_CASH - largest));
  }

  // ----- benchmarks

  function BenchmarkUnits(buy: real, fee: real, allocation: real): real
    requires buy > 0.0 && Gross(buy, fee) > 0.0
  {
    FloorUnits(Min(STARTING_CASH * allocation / buy, STARTING_CASH / Gross(buy, fee)) * UNIT_SCALE)
  }

  function HoldMarks(bars: seq<Bar>, cash: real, units: real): seq<real>
    requires |bars| >= 170
  {
    seq(|bars| - 169, k requires 0 <= k < |bars| - 169 => cash + Worth(units, bars[168 + k].close))
  }

  function HoldExposures(bars: seq<Bar>, cash: real, units: real): seq<real>
    requires |bars| >= 170 && 0.0 !in HoldMarks(bars, cash, units)
  {
    seq(|bars| - 169, k requires 0 <= k < |bars| - 169 =>
      assert HoldMarks(bars, cash, units)[k] != 0.0;
      Worth(units, bars[168 + k].close) / (cash + Worth(units, bars[168 + k].close)))
  }

  function Benchmark(bars: seq<Bar>, cost: Cost, allocation: real): Option<AccountMetrics>
    requires |bars| >= 170
  {
    var priced := Price(bars[168].open, true, cost);
    if priced.None? || priced.value <= 0.0 || Gross(priced.value, cost.fee) <= 0.0 then None else
    var buy := priced.value;
    var units := BenchmarkUnits(buy, cost.fee, allocation);
    var buyFee := Fee(units, buy, cost);
    if units <= 0.0 || buyFee.None? then None else
    var remaining := STARTING_CASH - Worth(units, buy) - buyFee.value;
    if remaining < 0.0 || 0.0 in HoldMarks(bars, remaining, units) then None else
    var marks, exposures := HoldMarks(bars, remaining, units), HoldExposures(bars, remaining, units);
    var sold := Price(bars[|bars| - 1].open, false, cost);
    if sold.None? then None else
    var sell := sold.value;
    var sellFee := Fee(units, sell, cost);
    if sellFee.None? then None else
    var final := remaining + Worth(units, sell) - sellFee.value;
    if !ValidMarks(marks + [final], exposures) then None else
    Some(MetricsOf(final, marks + [final], exposures, Worth(units, buy + sell) / STARTING_CASH,
                   buyFee.value + sellFee.value, 1, final - STARTING_CASH))
  }

  // ----- the account rebuilt from fills

  datatype Books = Books(entryCost: Option<real>, cash: real, units: real, entryUnits: real, largest: real, trips: nat)

  const OPENING := Books(None, STARTING_CASH, 0.0, 0.0, 0.0, 0)

  function Notional(f: Fill): real { Worth(f.units, f.price) }

  function Book(b: Books, f: Fill): Option<Books>
  {
    match f.intent
    case EnterLong =>
      if b.entryCost.Some? then None else
      var entryCost := Notional(f) + f.fee;
      Reconciled(b.(entryCost := Some(entryCost), entryUnits := f.units,
                    cash := b.cash - entryCost, units := b.units + f.units), f)
    case ExitToCash =>
      if b.entryCost.None? || f.units != b.entryUnits then None else
      var pnl := Notional(f) - f.fee - b.entryCost.value;
      Reconciled(Books(None, b.cash + (Notional(f) - f.fee), b.units - f.units, 0.0,
                       if b.trips == 0 || pnl > b.largest then pnl else b.largest, b.trips + 1), f)
    case Hold => None
  }

  function Reconciled(b: Books, f: Fill): Option<Books>
  {
    if b.cash != f.cashAfter || b.units != f.unitsAfter || b.cash < 0.0 || b.units < 0.0 then None else Some(b)
  }

  function BookAll(fills: seq<Fill>): Option<Books>
  {
    if fills == [] then Some(OPENING)
    else match BookAll(fills[..|fills| - 1])
      case None => None
      case Some(b) => Book(b, fills[|fills| - 1])
  }

  function Notionals(fills: seq<Fill>): seq<real>
  {
    seq(|fills|, k requires 0 <= k < |fills| => Notional(fills[k]))
  }

  function FillFees(fills: seq<Fill>): seq<real>
  {
    seq(|fills|, k requires 0 <= k < |fills| => fills[k].fee)
  }

  function Equities(marks: seq<Mark>): seq<real>
  {
    seq(|marks|, k requires 0 <= k < |marks| => marks[k].equity)
  }

  function Exposures(marks: seq<Mark>): seq<real>
  {
    seq(|marks|, k requires 0 <= k < |marks| => marks[k].exposure)
  }

  /** The metrics of holding only cash. */
  function CashMetrics(hours: nat): AccountMetrics
  {
    MetricsOf(STARTING_CASH, seq(hours + 1, _ => STARTING_CASH), seq(hours, _ => 0.0), 0.0, 0.0, 0, 0.0)
  }

  predicate Settled(bars: seq<Bar>, start: int, replay: ReplayResult)
  {
    |bars| >= 170 && |replay.marks| == |bars| - 169 && bars[168].start == start && replay.units == 0.0 && replay.cash > 0.0
  }

  function AnalysisOf(bars: seq<Bar>, start: int, replay: ReplayResult, cost: Cost): Option<TrialMetrics>
  {
    if !Settled(bars, start, replay) then None else
    var books := BookAll(replay.fills);
    if books.None? || books.value.entryCost.Some? || books.value.cash != replay.cash || books.value.units != replay.units ||
       replay.totalFees != Sum(FillFees(replay.fills)) then None else
    var equities, exposures := Equities(replay.marks) + [replay.cash], Exposures(replay.marks);
    var quarter, full := Benchmark(bars, cost, 0.25), Benchmark(bars, cost, 1.0);
    if !ValidMarks(equities, exposures) || quarter.None? || full.None? then None else
    Some(TrialMetrics(MetricsOf(replay.cash, equities, exposures, Sum(Notionals(replay.fills)) / STARTING_CASH,
                                replay.totalFees, books.value.trips, books.value.largest),
                      CashMetrics(|replay.marks|), quarter.value, full.value))
  }

  lemma {:induction false} BookAllStops(fills: seq<Fill>, k: nat)
    requires k <= |fills| && BookAll(fills[..k]).None?
    ensures BookAll(fills).None?
  {
    if k < |fills| {
      var front := fills[..|fills| - 1];
      assert front[..k] == fills[..k];
      BookAllStops(front, k);
    } else {
      assert fills[..k] == fills;
    }
  }

  /** The pass over the fills; `None` is the program's exception. */
  method RebuildBooks(fills: seq<Fill>) returns (r: Option<Books>)
    ensures r == BookAll(fills)
  {
    hide Notional;
    var entryCost: Option<real> := None;
    var cash, units, entryUnits, largest := STARTING_CASH, 0.0, 0.0, 0.0;
    var trips := 0;
    for k := 0 to |fills|
      invariant BookAll(fills[..k]) == Some(Books(entryCost, cash, units, entryUnits, largest, trips))
    {
      var f := fills[k];
      ghost var before := Books(entryCost, cash, units, entryUnits, largest, trips);
      assert fills[..k + 1][..k] == fills[..k];
      assert BookAll(fills[..k + 1]) == Book(before, f);
      hide BookAll;
      if f.intent == EnterLong {
        if entryCost.Some? {
          BookAllStops(fills, k + 1);
          return None;
        }
        var paid := Notional(f) + f.fee;
        entryCost := Some(paid);
        entryUnits := f.units;
        cash := cash - paid;
        units := units + f.units;
      } else if f.intent == ExitToCash {
        if entryCost.None? || f.units != entryUnits {
          BookAllStops(fills, k + 1);
          return None;
        }
        var pnl := Notional(f) - f.fee - entryCost.value;
        cash := cash + (Notional(f) - f.fee);
        units := units - f.units;
        if trips == 0 || pnl > largest {
          largest := pnl;
        }
        trips := trips + 1;
        entryCost := None;
        entryUnits := 0.0;
      } else {
        BookAllStops(fills, k + 1);
        return None;
      }
      if cash != f.cashAfter || units != f.unitsAfter || cash < 0.0 || units < 0.0 {
        BookAllStops(fills, k + 1);
        return None;
      }
    }
    assert fills[..|fills|] == fills;
    return Some(Books(entryCost, cash, units, entryUnits, largest, trips));
  }

  method Analyze(bars: seq<Bar>, start: int, replay: ReplayResult, cost: Cost) returns (r: Option<TrialMetrics>)
    ensures r == AnalysisOf(bars, start, replay, cost)
  {
    hide BookAll, Benchmark, MetricsOf, ValidMarks, Notionals, FillFees, Sum;
    if !Settled(bars, start, replay) {
      return None;
    }
    var equities, exposures := Equities(replay.marks) + [replay.cash], Exposures(replay.marks);
    var turnover := Sum(Notionals(replay.fills)) / STARTING_CASH;
    var rebuilt := RebuildBooks(replay.fills);
    if rebuilt.None? {
      return None;
    }
    var books := rebuilt.value;
    if books.entryCost.Some? || books.cash != replay.cash || books.units != replay.units ||
       replay.totalFees != Sum(FillFees(replay.fills))
    {
      return None;
    }
    var strategy := Metrics(replay.cash, equities, exposures, turnover, replay.totalFees, books.trips, books.largest);
    var hours := |replay.marks|;
    var idle := Metrics(STARTING_CASH, seq(hours + 1, _ => STARTING_CASH), seq(hours, _ => 0.0), 0.0, 0.0, 0, 0.0);
    IdleMarks(hours);
    var quarter, full := Benchmark(bars, cost, 0.25), Benchmark(bars, cost, 1.0);
    if strategy.None? || idle.None? || quarter.None? || full.None? {
      return None;
    }
    return Some(TrialMetrics(strategy.value, idle.value, quarter.value, full.value));
  }

  lemma IdleMarks(hours: nat)
    ensures ValidMarks(seq(hours + 1, _ => STARTING_CASH), seq(hours, _ => 0.0))
  {}
}
