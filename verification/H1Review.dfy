/** The independent review of one frozen H1 result.  It rebuilds the account
    from the fills, every mark from the fills at or before its hour, every
    decision from a slice mean, and all four metric records.  Decimal equality
    stands for the program's 1e-20 tolerance, so acceptance here is stricter. */
module H1Review {
  import opened Exact
  import opened Drawdown
  import opened H1Policy
  import opened H1Replay
  import opened H1Accounting

  datatype Audit = Audit(cash: real, units: real, fees: real, entryCost: Option<real>, trips: nat,
                         largest: real, turnover: real)

  const UNTOUCHED := Audit(STARTING_CASH, 0.0, 0.0, None, 0, 0.0, 0.0)

  /** Bars by opening hour; a repeated hour keeps the later bar. */
  function ByOpen(bars: seq<Bar>): map<int, Bar>
  {
    if bars == [] then map[]
    else ByOpen(bars[..|bars| - 1])[bars[|bars| - 1].start := bars[|bars| - 1]]
  }

  predicate Ordered(fills: seq<Fill>)
  {
    forall j, k :: 0 <= j < k < |fills| ==> fills[j].filledAt <= fills[k].filledAt
  }

  /** The clock, identity and quantity checks on one fill. */
  predicate Admissible(f: Fill, byOpen: map<int, Bar>, start: int, end: int)
  {
    && f.filledAt in byOpen && start <= f.filledAt <= end
    && (if f.terminal then f.filledAt == end && f.intent == ExitToCash else f.filledAt == f.signalClosed)
    && f.units > 0.0 && WholeUnits(f.units)
    && f.intent != Hold
  }

  function FairPrice(open: real, entering: bool, cost: Cost): real
  {
    open * (if entering then 1.0 + cost.adverse else 1.0 - cost.adverse)
  }

  function FairFee(quantity: real, price: real, cost: Cost): real { FeeOn(quantity, price, cost.fee) }

  function AuditEntry(a: Audit, f: Fill, price: real, fee: real): Option<Audit>
  {
    if a.units != 0.0 || a.entryCost.Some? || price == 0.0 then None
    else if f.units != RoundDownUnits(a.cash * 0.25 * UNIT_SCALE / price) then None
    else
      var entryCost := Worth(f.units, price) + fee;
      Some(a.(cash := a.cash - entryCost, units := a.units + f.units, entryCost := Some(entryCost)))
  }

  function AuditExit(a: Audit, f: Fill, price: real, fee: real): Option<Audit>
  {
    if a.entryCost.None? || f.units != a.units then None
    else
      var proceeds := Worth(f.units, price) - fee;
      var pnl := proceeds - a.entryCost.value;
      Some(a.(cash := a.cash + proceeds, units := a.units - f.units, entryCost := None,
              largest := if a.trips == 0 || pnl > a.largest then pnl else a.largest, trips := a.trips + 1))
  }

  function AuditFill(a: Audit, f: Fill, byOpen: map<int, Bar>, start: int, end: int, cost: Cost): Option<Audit>
  {
    if !Admissible(f, byOpen, start, end) then None else
    var entering := f.intent == EnterLong;
    var price := FairPrice(byOpen[f.filledAt].open, entering, cost);
    var fee := FairFee(f.units, price, cost);
    if f.price != price || f.fee != fee then None else
    match (if entering then AuditEntry(a, f, price, fee) else AuditExit(a, f, price, fee))
    case None => None
    case Some(b) =>
      if b.cash < 0.0 || b.units < 0.0 || f.cashAfter != b.cash || f.unitsAfter != b.units then None
      else Some(b.(fees := a.fees + fee, turnover := a.turnover + Worth(f.units, price) / STARTING_CASH))
  }

  function AuditFills(fills: seq<Fill>, byOpen: map<int, Bar>, start: int, end: int, cost: Cost): Option<Audit>
  {
    if fills == [] then Some(UNTOUCHED)
    else match AuditFills(fills[..|fills| - 1], byOpen, start, end, cost)
      case None => None
      case Some(a) => AuditFill(a, fills[|fills| - 1], byOpen, start, end, cost)
  }

  /** The index after every fill from `next` on that happened at `opensAt`. */
  function Consume(fills: seq<Fill>, next: nat, opensAt: int): (r: nat)
    requires next <= |fills|
    ensures next <= r <= |fills|
    decreases |fills| - next
  {
    if next < |fills| && fills[next].filledAt == opensAt then Consume(fills, next + 1, opensAt) else next
  }

  datatype Marking = Marking(next: nat, cash: real, units: real, peak: real, halted: bool,
                             equities: seq<real>, exposures: seq<real>)

  const UNMARKED := Marking(0, STARTING_CASH, 0.0, STARTING_CASH, false, [], [])

  predicate SameMark(mark: Mark, closed: int, cash: real, units: real, equity: real, exposure: real)
  {
    mark == Mark(closed, cash, units, equity, exposure)
  }

  /** The decision the review derives from a slice mean and its own marks. */
  function ReviewedDecision(closed: int, index: nat, mean: real, close: real, units: real, halted: bool): Decision
  {
    var intent :=
      if halted then (if units > 0.0 then ExitToCash else Hold)
      else if units > 0.0 && close <= mean then ExitToCash
      else if units == 0.0 && close > mean then EnterLong
      else Hold;
    Decision(closed, index + 169, Some(mean), intent, if halted then DrawdownHalt else Clear, halted,
             match intent case EnterLong => Some(0.25) case ExitToCash => Some(0.0) case Hold => None)
  }

  function SliceMean(bars: seq<Bar>, index: nat): real
    requires index + 169 <= |bars|
  {
    Sum(Closes(bars, index + 169)[index + 1..index + 169]) / 168.0
  }

  predicate Proposed(d: Decision, fills: seq<Fill>)
  {
    d.intent != Hold ==>
      exists k :: 0 <= k < |fills| && fills[k].intent == d.intent && fills[k].signalClosed == d.closedAt && !fills[k].terminal
  }

  function MarkedExposure(units: real, close: real, equity: real): real
    requires equity != 0.0
  {
    Worth(units, close) / equity
  }

  function AuditMark(m: Marking, bars: seq<Bar>, fills: seq<Fill>, decision: Decision, mark: Mark, index: nat): Option<Marking>
    requires index + 169 <= |bars| && m.next <= |fills|
  {
    var opensAt, close := bars[168 + index].start, bars[168 + index].close;
    var closed := opensAt + 1;
    var next := Consume(fills, m.next, opensAt);
    var cash := if next > m.next then fills[next - 1].cashAfter else m.cash;
    var units := if next > m.next then fills[next - 1].unitsAfter else m.units;
    var equity := Equity(cash, units, close);
    if equity <= 0.0 then None else
    var exposure := MarkedExposure(units, close, equity);
    var peak := Max(m.peak, equity);
    var halted := m.halted || equity <= peak * 0.8;
    if !SameMark(mark, closed, cash, units, equity, exposure) || exposure > 1.0 ||
       decision != ReviewedDecision(closed, index, SliceMean(bars, index), close, units, halted) then None
    else Some(Marking(next, cash, units, peak, halted, m.equities + [equity], m.exposures + [exposure]))
  }

  function AuditMarks(bars: seq<Bar>, fills: seq<Fill>, decisions: seq<Decision>, marks: seq<Mark>, n: nat): (r: Option<Marking>)
    requires n <= |decisions| && n <= |marks| && n + 168 <= |bars|
    ensures r.Some? ==> r.value.next <= |fills|
  {
    if n == 0 then Some(UNMARKED)
    else match AuditMarks(bars, fills, decisions, marks, n - 1)
      case None => None
      case Some(m) => AuditMark(m, bars, fills, decisions[n - 1], marks[n - 1], n - 1)
  }

  function ReviewBenchmark(bars: seq<Bar>, cost: Cost, allocation: real): Option<AccountMetrics>
    requires |bars| >= 170
  {
    var buy := FairPrice(bars[168].open, true, cost);
    var sell := FairPrice(bars[|bars| - 1].open, false, cost);
    if buy <= 0.0 || Gross(buy, cost.fee) <= 0.0 then None else
    var affordable := STARTING_CASH / Gross(buy, cost.fee);
    var units := RoundDownUnits(Min(STARTING_CASH * allocation / buy, affordable) * UNIT_SCALE);
    var buyFee := FairFee(units, buy, cost);
    var cash := STARTING_CASH - Worth(units, buy) - buyFee;
    if cash < 0.0 || units <= 0.0 || 0.0 in HoldMarks(bars, cash, units) then None else
    var marks, exposures := HoldMarks(bars, cash, units), HoldExposures(bars, cash, units);
    var sellFee := FairFee(units, sell, cost);
    var final := cash + Worth(units, sell) - sellFee;
    Some(MetricsOf(final, marks + [final], exposures, Worth(units, buy + sell) / STARTING_CASH, buyFee + sellFee, 1,
                   final - STARTING_CASH))
  }

  ghost predicate Accepts(bars: seq<Bar>, start: int, end: int, replay: ReplayResult, reported: TrialMetrics, cost: Cost)
  {
    var hours := end - start;
    && hours >= 1
    && |bars| == 168 + hours + 1 && |replay.decisions| == hours && |replay.marks| == hours
    && Ordered(replay.fills)
    && var audited := AuditFills(replay.fills, ByOpen(bars), start, end, cost);
    && audited.Some?
    && var a := audited.value;
    && a.units == 0.0 && a.entryCost == None
    && replay.cash == a.cash && replay.units == a.units && replay.totalFees == a.fees
    && var marked := AuditMarks(bars, replay.fills, replay.decisions, replay.marks, hours);
    && marked.Some?
    && (forall k :: 0 <= k < hours ==> Proposed(replay.decisions[k], replay.fills))
    && (forall k :: marked.value.next <= k < |replay.fills| ==> replay.fills[k].filledAt == end)
    && reported.strategy == MetricsOf(a.cash, marked.value.equities + [a.cash], marked.value.exposures, a.turnover,
                                      a.fees, a.trips, a.largest)
    && reported.cash == CashMetrics(hours)
    && ReviewBenchmark(bars, cost, 0.25) == Some(reported.quarterHold)
    && ReviewBenchmark(bars, cost, 1.0) == Some(reported.fullHold)
  }

  // ----- the review's loops

  method IndexBars(bars: seq<Bar>) returns (byOpen: map<int, Bar>)
    ensures byOpen == ByOpen(bars)
  {
    byOpen := map[];
    for k := 0 to |bars|
      invariant byOpen == ByOpen(bars[..k])
    {
      assert bars[..k + 1][..k] == bars[..k];
      byOpen := byOpen[bars[k].start := bars[k]];
    }
    assert bars[..|bars|] == bars;
  }

  lemma {:induction false} AuditFillsStops(fills: seq<Fill>, byOpen: map<int, Bar>, start: int, end: int, cost: Cost, k: nat)
    requires k <= |fills| && AuditFills(fills[..k], byOpen, start, end, cost).None?
    ensures AuditFills(fills, byOpen, start, end, cost).None?
  {
    if k < |fills| {
      var front := fills[..|fills| - 1];
      assert front[..k] == fills[..k];
      AuditFillsStops(front, byOpen, start, end, cost, k);
    } else {
      assert fills[..k] == fills;
    }
  }

  method ReviewFills(fills: seq<Fill>, byOpen: map<int, Bar>, start: int, end: int, cost: Cost) returns (r: Option<Audit>)
    ensures r == AuditFills(fills, byOpen, start, end, cost)
  {
    hide AuditFill;
    var a := UNTOUCHED;
    for k := 0 to |fills|
      invariant AuditFills(fills[..k], byOpen, start, end, cost) == Some(a)
    {
      assert fills[..k + 1][..k] == fills[..k];
      var step := AuditFill(a, fills[k], byOpen, start, end, cost);
      if step.None? {
        AuditFillsStops(fills, byOpen, start, end, cost, k + 1);
        return None;
      }
      a := step.value;
    }
    assert fills[..|fills|] == fills;
    return Some(a);
  }

  lemma {:induction false} AuditMarksStops(bars: seq<Bar>, fills: seq<Fill>, decisions: seq<Decision>, marks: seq<Mark>, k: nat, n: nat)
    requires k <= n <= |decisions| && n <= |marks| && n + 168 <= |bars|
    requires AuditMarks(bars, fills, decisions, marks, k).None?
    ensures AuditMarks(bars, fills, decisions, marks, n).None?
  {
    if k < n {
      AuditMarksStops(bars, fills, decisions, marks, k, n - 1);
    }
  }

  method HasProposalFill(d: Decision, fills: seq<Fill>) returns (found: bool)
    ensures found <==> Proposed(d, fills)
  {
    if d.intent == Hold {
      return true;
    }
    for k := 0 to |fills|
      invariant forall j :: 0 <= j < k ==>
        !(fills[j].intent == d.intent && fills[j].signalClosed == d.closedAt && !fills[j].terminal)
    {
      if fills[k].intent == d.intent && fills[k].signalClosed == d.closedAt && !fills[k].terminal {
        return true;
      }
    }
    return false;
  }

  method ReviewMark(m: Marking, bars: seq<Bar>, fills: seq<Fill>, decision: Decision, mark: Mark, index: nat)
    returns (r: Option<Marking>)
    requires index + 169 <= |bars| && m.next <= |fills|
    ensures r == AuditMark(m, bars, fills, decision, mark, index)
  {
    hide ReviewedDecision, SliceMean, Equity, MarkedExposure;
    var opensAt, close := bars[168 + index].start, bars[168 + index].close;
    var closed := opensAt + 1;
    var next, cash, units := m.next, m.cash, m.units;
    while next < |fills| && fills[next].filledAt == opensAt
      invariant m.next <= next <= |fills|
      invariant Consume(fills, m.next, opensAt) == Consume(fills, next, opensAt)
      invariant cash == if next > m.next then fills[next - 1].cashAfter else m.cash
      invariant units == if next > m.next then fills[next - 1].unitsAfter else m.units
    {
      cash := fills[next].cashAfter;
      units := fills[next].unitsAfter;
      next := next + 1;
    }
    assert next == Consume(fills, m.next, opensAt);
    var equity := Equity(cash, units, close);
    if equity <= 0.0 {
      return None;
    }
    var exposure := MarkedExposure(units, close, equity);
    if !SameMark(mark, closed, cash, units, equity, exposure) || exposure > 1.0 {
      return None;
    }
    var peak := Max(m.peak, equity);
    var halted := m.halted;
    if equity <= peak * 0.8 {
      halted := true;
    }
    if decision != ReviewedDecision(closed, index, SliceMean(bars, index), close, units, halted) {
      return None;
    }
    return Some(Marking(next, cash, units, peak, halted, m.equities + [equity], m.exposures + [exposure]));
  }

  method ReviewMarks(bars: seq<Bar>, replay: ReplayResult, hours: nat) returns (r: Option<Marking>)
    requires |replay.decisions| == |replay.marks| == hours && hours + 169 == |bars|
    ensures r.Some? <==>
      && AuditMarks(bars, replay.fills, replay.decisions, replay.marks, hours).Some?
      && forall k :: 0 <= k < hours ==> Proposed(replay.decisions[k], replay.fills)
    ensures r.Some? ==> r == AuditMarks(bars, replay.fills, replay.decisions, replay.marks, hours)
  {
    hide AuditMark, Proposed;
    var m := UNMARKED;
    for k := 0 to hours
      invariant AuditMarks(bars, replay.fills, replay.decisions, replay.marks, k) == Some(m)
      invariant forall j :: 0 <= j < k ==> Proposed(replay.decisions[j], replay.fills)
    {
      var step := ReviewMark(m, bars, replay.fills, replay.decisions[k], replay.marks[k], k);
      if step.None? {
        AuditMarksStops(bars, replay.fills, replay.decisions, replay.marks, k + 1, hours);
        return None;
      }
      m := step.value;
      var proposed := HasProposalFill(replay.decisions[k], replay.fills);
      if !proposed {
        return None;
      }
    }
    return Some(m);
  }

  /** The review's metrics loop, written separately from the engine's. */
  method ReviewMetrics(equities: seq<real>, exposures: seq<real>, final: real, turnover: real, fees: real,
                       trips: nat, largest: real) returns (r: AccountMetrics)
    requires equities != [] && exposures != []
    ensures r == MetricsOf(final, equities, exposures, turnover, fees, trips, largest)
  {
    var hours := |equities| - 1;
    var peak, maximum := STARTING_CASH, 0.0;
    var longest, current, total := 0, 0, 0;
    for index := 0 to |equities|
      invariant peak == PeakFrom(STARTING_CASH, equities[..index])
      invariant maximum == WorstFall(STARTING_CASH, equities[..index])
      invariant current == OpenRun(STARTING_CASH, equities[..index], hours)
      invariant total == UnderwaterHours(STARTING_CASH, equities[..index], hours)
      invariant longest == LongestRun(STARTING_CASH, equities[..index], hours)
    {
      assert equities[..index + 1][..index] == equities[..index];
      PeakAtLeast(STARTING_CASH, equities[..index]);
      WorstFallNonnegative(STARTING_CASH, equities[..index]);
      var equity := equities[index];
      if equity >= peak {
        peak, current := equity, 0;
      } else {
        maximum := Max(maximum, (peak - equity) / peak);
        if index < |equities| - 1 {
          current := current + 1;
          total := total + 1;
        }
        longest := if current > longest then current else longest;
      }
    }
    assert equities[..|equities|] == equities;
    return AccountMetrics(final, (final - STARTING_CASH) / STARTING_CASH, maximum, total, longest,
                          Sum(exposures) / |exposures| as real, turnover, fees, trips, largest,
                          final - STARTING_CASH - largest);
  }

  method ReviewCase(bars: seq<Bar>, start: int, end: int, replay: ReplayResult, reported: TrialMetrics, cost: Cost)
    returns (accepted: bool)
    ensures accepted <==> Accepts(bars, start, end, replay, reported, cost)
  {
    hide AuditFills, AuditMarks, ByOpen, MetricsOf, ReviewBenchmark, Proposed;
    var hours := end - start;
    if |bars| != 168 + hours + 1 || |replay.decisions| != hours || |replay.marks| != hours || hours < 1 {
      return false;
    }
    var byOpen := IndexBars(bars);
    if !Ordered(replay.fills) {
      return false;
    }
    var audited := ReviewFills(replay.fills, byOpen, start, end, cost);
    if audited.None? {
      return false;
    }
    var a := audited.value;
    if a.units != 0.0 || a.entryCost.Some? || replay.cash != a.cash || replay.units != a.units || replay.totalFees != a.fees {
      return false;
    }
    var marked := ReviewMarks(bars, replay, hours);
    if marked.None? {
      return false;
    }
    var m := marked.value;
    MarkingLength(bars, replay.fills, replay.decisions, replay.marks, hours);
    if exists k :: m.next <= k < |replay.fills| && replay.fills[k].filledAt != end {
      return false;
    }
    var strategy := ReviewMetrics(m.equities + [a.cash], m.exposures, a.cash, a.turnover, a.fees, a.trips, a.largest);
    var cash := ReviewMetrics(seq(hours + 1, _ => STARTING_CASH), seq(hours, _ => 0.0), STARTING_CASH, 0.0, 0.0, 0, 0.0);
    return reported.strategy == strategy && reported.cash == cash &&
           ReviewBenchmark(bars, cost, 0.25) == Some(reported.quarterHold) &&
           ReviewBenchmark(bars, cost, 1.0) == Some(reported.fullHold);
  }

  lemma {:induction false} MarkingLength(bars: seq<Bar>, fills: seq<Fill>, decisions: seq<Decision>, marks: seq<Mark>, n: nat)
    requires n <= |decisions| && n <= |marks| && n + 168 <= |bars|
    ensures var r := AuditMarks(bars, fills, decisions, marks, n);
      r.Some? ==> |r.value.equities| == |r.value.exposures| == n
  {
    hide ReviewedDecision, SliceMean, Equity;
    if n > 0 {
      MarkingLength(bars, fills, decisions, marks, n - 1);
    }
  }
}
