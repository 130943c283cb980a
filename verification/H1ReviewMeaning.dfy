/** What acceptance by the review guarantees of any result, whoever made it, in
    plain arithmetic; and a result it accepts that the replay does not return. */
module H1ReviewMeaning {
  import opened Exact
  import opened Outcomes
  import opened Drawdown
  import opened H1Policy
  import opened H1Replay
  import opened H1Accounting
  import opened H1Review
  import opened H1Acceptance
  import opened H1Results
  import opened H1Records

  // ----- the pass over the fills

  /** The clock of one fill: at an hour of the partition, right after its signal
      closed, or an exit at the terminal open. */
  ghost predicate ClockTold(f: Fill, start: int, end: int)
  {
    && start <= f.filledAt <= end
    && (!f.terminal ==> f.filledAt == f.signalClosed) && (f.terminal ==> f.filledAt == end && f.intent == ExitToCash)
  }

  ghost predicate AuditTold(a: Audit, bars: seq<Bar>, start: int, end: int, cost: Cost, fills: seq<Fill>)
  {
    && (forall k: nat :: k < |fills| ==> FillTold(bars, start, cost, fills, k) && ClockTold(fills[k], start, end))
    && a.cash == CashBefore(fills, |fills|) && a.units == UnitsBefore(fills, |fills|) && a.cash >= 0.0
    && a.fees == FeesPaid(fills) && a.turnover * 10000.0 == TradedIn(fills)
    && (a.entryCost.Some? <==> |fills| % 2 == 1) && (a.units == 0.0 <==> |fills| % 2 == 0)
    && (a.entryCost.Some? ==> a.entryCost.value == fills[|fills| - 1].units * fills[|fills| - 1].price + fills[|fills| - 1].fee)
    && a.trips == |fills| / 2 && LargestTold(a.largest, fills, a.trips)
  }

  lemma HourOf(bars: seq<Bar>, start: int, end: int, time: int)
    requires ValidPartition(bars, start, end) && start <= time <= end
    ensures var h := time - start + 168;
      && 168 <= h < |bars| && bars[h].start == time && bars[h].open > 0.0 && time in ByOpen(bars) && ByOpen(bars)[time] == bars[h]
  {
    ByOpenFinds(bars, start, end, time - start + 168);
  }

  lemma QuantityIsMost(cash: real, price: real, units: real)
    requires cash >= 0.0 && price > 0.0 && units > 0.0 && units == RoundDownUnits(cash * 0.25 * UNIT_SCALE / price)
    ensures MostUnits(units, price, cash * 0.25)
  {
    var amount := cash * 0.25;
    QuotientAtLeast(amount * UNIT_SCALE, price, 0.0);
    RoundingAgrees(amount * UNIT_SCALE / price);
    RoundedIsMost(amount, price);
  }

  /** One accepted entry. */
  lemma EntryAudited(a: Audit, f: Fill, bars: seq<Bar>, start: int, end: int, cost: Cost, fills: seq<Fill>)
    requires ValidPartition(bars, start, end) && ValidCost(cost) && AuditTold(a, bars, start, end, cost, fills) && f.intent == EnterLong
    requires AuditFill(a, f, ByOpen(bars), start, end, cost).Some?
    ensures ClockTold(f, start, end) && |fills| % 2 == 0
    ensures FillTold(bars, start, cost, fills + [f], |fills|)
    ensures var b := AuditFill(a, f, ByOpen(bars), start, end, cost).value;
      && b.cash == f.cashAfter >= 0.0 && b.units == f.unitsAfter > 0.0 && b.fees == a.fees + f.fee
      && b.entryCost == Some(f.units * f.price + f.fee) && b.trips == a.trips && b.largest == a.largest
      && b.turnover * 10000.0 == a.turnover * 10000.0 + f.units * f.price
  {
    hide ByOpen, RoundDownUnits, MostUnits, WholeUnits, FillTold, LargestTold, TradedIn, FeesPaid;
    HourOf(bars, start, end, f.filledAt);
    var open := bars[f.filledAt - start + 168].open;
    MulPos(open, 1.0 + cost.adverse);
    QuantityIsMost(a.cash, f.price, f.units);
    FillsBefore(fills, f, |fills|);
    EntryShape(bars, start, cost, fills, f);
    DivMul(f.units * f.price, STARTING_CASH);
  }

  lemma EntryShape(bars: seq<Bar>, start: int, cost: Cost, fills: seq<Fill>, f: Fill)
    requires var h := f.filledAt - start + 168; 168 <= h < |bars| && bars[h].start == f.filledAt && f.price == bars[h].open * (1.0 + cost.adverse)
    requires |fills| % 2 == 0 && f.intent == EnterLong && f.fee == f.units * f.price * cost.fee && f.units > 0.0 && UnitsBefore(fills, |fills|) == 0.0
    requires MostUnits(f.units, f.price, CashBefore(fills, |fills|) * 0.25)
    requires f.cashAfter == CashBefore(fills, |fills|) - f.units * f.price - f.fee && f.unitsAfter == f.units
    ensures FillTold(bars, start, cost, fills + [f], |fills|)
  {
    FillsBefore(fills, f, |fills|);
  }

  lemma ExitAudited(a: Audit, f: Fill, bars: seq<Bar>, start: int, end: int, cost: Cost, fills: seq<Fill>)
    requires ValidPartition(bars, start, end) && ValidCost(cost) && AuditTold(a, bars, start, end, cost, fills) && f.intent == ExitToCash
    requires AuditFill(a, f, ByOpen(bars), start, end, cost).Some?
    ensures ClockTold(f, start, end) && |fills| % 2 == 1
    ensures FillTold(bars, start, cost, fills + [f], |fills|)
    ensures var b := AuditFill(a, f, ByOpen(bars), start, end, cost).value;
      && b.cash == f.cashAfter >= 0.0 && b.units == f.unitsAfter == 0.0 && b.fees == a.fees + f.fee
      && b.entryCost == None && b.trips == a.trips + 1
      && var result := f.units * f.price - f.fee - a.entryCost.value;
      && b.largest == (if a.trips == 0 || result > a.largest then result else a.largest)
      && b.turnover * 10000.0 == a.turnover * 10000.0 + f.units * f.price
  {
    hide ByOpen, WholeUnits, FillTold, LargestTold, TradedIn, FeesPaid;
    HourOf(bars, start, end, f.filledAt);
    FillsBefore(fills, f, |fills|);
    ExitShape(bars, start, cost, fills, f);
    DivMul(f.units * f.price, STARTING_CASH);
  }

  lemma ExitShape(bars: seq<Bar>, start: int, cost: Cost, fills: seq<Fill>, f: Fill)
    requires var h := f.filledAt - start + 168; 168 <= h < |bars| && bars[h].start == f.filledAt && f.price == bars[h].open * (1.0 - cost.adverse)
    requires |fills| % 2 == 1 && f.intent == ExitToCash && f.fee == f.units * f.price * cost.fee && f.units == UnitsBefore(fills, |fills|) > 0.0
    requires f.cashAfter == CashBefore(fills, |fills|) + f.units * f.price - f.fee && f.unitsAfter == 0.0
    ensures FillTold(bars, start, cost, fills + [f], |fills|)
  {
    FillsBefore(fills, f, |fills|);
  }

  lemma FeesGrow(fills: seq<Fill>, f: Fill)
    ensures FeesPaid(fills + [f]) == FeesPaid(fills) + f.fee
  {
    assert (fills + [f])[..|fills|] == fills;
  }

  lemma TradedGrows(fills: seq<Fill>, f: Fill)
    ensures TradedIn(fills + [f]) == TradedIn(fills) + f.units * f.price
  {
    assert (fills + [f])[..|fills|] == fills;
  }

  lemma TotalsGrow(fills: seq<Fill>, f: Fill)
    ensures FeesPaid(fills + [f]) == FeesPaid(fills) + f.fee && TradedIn(fills + [f]) == TradedIn(fills) + f.units * f.price
    ensures CashBefore(fills + [f], |fills| + 1) == f.cashAfter && UnitsBefore(fills + [f], |fills| + 1) == f.unitsAfter
  {
    hide FeesPaid, TradedIn;
    FeesGrow(fills, f);
    TradedGrows(fills, f);
  }

  lemma FillsGrow(a: Audit, f: Fill, bars: seq<Bar>, start: int, end: int, cost: Cost, fills: seq<Fill>)
    requires AuditTold(a, bars, start, end, cost, fills)
    requires FillTold(bars, start, cost, fills + [f], |fills|) && ClockTold(f, start, end)
    ensures forall k: nat :: k < |fills| + 1 ==> FillTold(bars, start, cost, fills + [f], k) && ClockTold((fills + [f])[k], start, end)
  {
    hide FillTold, ClockTold, LargestTold, FeesPaid, TradedIn, CashBefore, UnitsBefore;
    forall k: nat | k < |fills|
      ensures FillTold(bars, start, cost, fills + [f], k) && ClockTold((fills + [f])[k], start, end)
    {
      FillStaysTold(bars, start, cost, fills, f, k);
      assert (fills + [f])[k] == fills[k];
    }
  }

  lemma FillAudited(a: Audit, b: Audit, f: Fill, bars: seq<Bar>, start: int, end: int, cost: Cost, fills: seq<Fill>)
    requires ValidPartition(bars, start, end) && ValidCost(cost) && AuditTold(a, bars, start, end, cost, fills)
    requires AuditFill(a, f, ByOpen(bars), start, end, cost) == Some(b)
    ensures AuditTold(b, bars, start, end, cost, fills + [f])
  {
    hide ByOpen, AuditFill, FillTold, ClockTold, ValidPartition, ValidCost, LargestTold, FeesPaid, TradedIn, CashBefore, UnitsBefore, TripResult;
    var more := fills + [f];
    assert more[|fills|] == f;
    NotHold(a, f, bars, start, end, cost);
    TotalsGrow(fills, f);
    LargestStays(a.largest, fills, f, a.trips);
    if f.intent == EnterLong {
      EntryAudited(a, f, bars, start, end, cost, fills);
    } else {
      ExitAudited(a, f, bars, start, end, cost, fills);
      var result := f.units * f.price - f.fee - a.entryCost.value;
      LastTrip(fills, f, a.trips, a.entryCost.value);
      LargestGrows(a.largest, more, a.trips, result);
    }
    FillsGrow(a, f, bars, start, end, cost, fills);
  }

  lemma LastTrip(fills: seq<Fill>, f: Fill, trips: nat, entryCost: real)
    requires |fills| == 2 * trips + 1 && entryCost == fills[|fills| - 1].units * fills[|fills| - 1].price + fills[|fills| - 1].fee
    ensures TripResult(fills + [f], trips) == f.units * f.price - f.fee - entryCost
  {}

  lemma NotHold(a: Audit, f: Fill, bars: seq<Bar>, start: int, end: int, cost: Cost)
    requires AuditFill(a, f, ByOpen(bars), start, end, cost).Some?
    ensures f.intent != Hold
  {
    hide ByOpen, WholeUnits;
  }

  lemma {:induction false} FillsAudited(bars: seq<Bar>, start: int, end: int, cost: Cost, fills: seq<Fill>)
    requires ValidPartition(bars, start, end) && ValidCost(cost) && AuditFills(fills, ByOpen(bars), start, end, cost).Some?
    ensures AuditTold(AuditFills(fills, ByOpen(bars), start, end, cost).value, bars, start, end, cost, fills)
  {
    hide ByOpen, AuditFill, AuditTold, ValidPartition, ValidCost;
    if fills == [] {
      NothingAudited(bars, start, end, cost);
    } else {
      var front := fills[..|fills| - 1];
      FillsAudited(bars, start, end, cost, front);
      assert fills == front + [fills[|fills| - 1]];
      FillAudited(AuditFills(front, ByOpen(bars), start, end, cost).value, AuditFills(fills, ByOpen(bars), start, end, cost).value,
                  fills[|fills| - 1], bars, start, end, cost, front);
    }
  }

  lemma NothingAudited(bars: seq<Bar>, start: int, end: int, cost: Cost)
    ensures AuditTold(UNTOUCHED, bars, start, end, cost, [])
  {}

  // ----- the pass over the marks

  /** The marking stands after the last fill up to a time, at the highest mark so far. */
  ghost predicate MarkingTold(m: Marking, bars: seq<Bar>, fills: seq<Fill>, decisions: seq<Decision>, marks: seq<Mark>, time: int, n: nat)
    requires n <= |marks| && n <= |decisions| && n + 168 <= |bars|
  {
    && LastFill(fills, time, m.next) && m.cash == CashBefore(fills, m.next) && m.units == UnitsBefore(fills, m.next)
    && |m.equities| == |m.exposures| == n && (forall k: nat :: k < n ==> m.equities[k] == marks[k].equity && m.exposures[k] == marks[k].exposure)
    && m.peak == PeakFrom(10000.0, m.equities)
    && (m.halted <==> exists k: nat :: k < n && FallenAt(marks, k))
    && (forall k: nat :: k < n ==> MarkTold(bars, fills, marks[k], 168 + k) && DecisionTold(bars, marks[..n], decisions[k], k))
  }

  /** Mark `k` stands a fifth below an earlier mark or the opening cash. */
  ghost predicate FallenAt(marks: seq<Mark>, k: nat)
  {
    k < |marks| && (marks[k].equity <= 10000.0 * 0.8 || exists j: nat :: j <= k && marks[k].equity <= marks[j].equity * 0.8)
  }

  /** Consuming the fills of one hour moves the last fill from the hour before to this one. */
  lemma {:induction false} ConsumeToLast(fills: seq<Fill>, next: nat, time: int)
    requires Ordered(fills) && next <= |fills|
    requires (forall j :: 0 <= j < next ==> fills[j].filledAt <= time) && (forall j :: next <= j < |fills| ==> fills[j].filledAt >= time)
    ensures LastFill(fills, time, Consume(fills, next, time))
    decreases |fills| - next
  {
    if next < |fills| && fills[next].filledAt == time {
      ConsumeToLast(fills, next + 1, time);
    }
  }

  lemma ConsumedAccount(fills: seq<Fill>, m: Marking, next: nat)
    requires m.next <= next <= |fills| && m.cash == CashBefore(fills, m.next) && m.units == UnitsBefore(fills, m.next)
    ensures (if next > m.next then fills[next - 1].cashAfter else m.cash) == CashBefore(fills, next)
    ensures (if next > m.next then fills[next - 1].unitsAfter else m.units) == UnitsBefore(fills, next)
  {}

  /** What the review compares at one hour. */
  lemma AuditMarkIs(m: Marking, bars: seq<Bar>, fills: seq<Fill>, d: Decision, mark: Mark, index: nat)
    requires index + 169 <= |bars| && m.next <= |fills| && AuditMark(m, bars, fills, d, mark, index).Some?
    requires m.cash == CashBefore(fills, m.next) && m.units == UnitsBefore(fills, m.next)
    ensures var r := AuditMark(m, bars, fills, d, mark, index).value;
      && r.next == Consume(fills, m.next, bars[168 + index].start) && r.cash == CashBefore(fills, r.next) && r.units == UnitsBefore(fills, r.next)
      && mark.closedAt == bars[168 + index].start + 1 && mark.cash == r.cash && mark.units == r.units
      && mark.equity == r.cash + r.units * bars[168 + index].close > 0.0
      && mark.exposure * mark.equity == r.units * bars[168 + index].close
      && r.peak == Max(m.peak, mark.equity) && r.halted == (m.halted || mark.equity <= r.peak * 0.8)
      && r.equities == m.equities + [mark.equity] && r.exposures == m.exposures + [mark.exposure]
      && d == ReviewedDecision(bars[168 + index].start + 1, index, SliceMean(bars, index), bars[168 + index].close, r.units, r.halted)
  {
    hide ReviewedDecision, SliceMean;
    var next := Consume(fills, m.next, bars[168 + index].start);
    ConsumedAccount(fills, m, next);
    DivMul(UnitsBefore(fills, next) * bars[168 + index].close, mark.equity);
  }

  lemma ReviewedIsTold(bars: seq<Bar>, marks: seq<Mark>, k: nat, halted: bool)
    requires 168 + k < |bars| && k < |marks| && marks[k].units >= 0.0 && (halted <==> Fallen(bars, marks, 168 + k))
    ensures DecisionTold(bars, marks,
              ReviewedDecision(bars[168 + k].start + 1, k, SliceMean(bars, k), bars[168 + k].close, marks[k].units, halted), k)
  {
    hide Fallen, CloseTotal, SliceMean, Mean;
    MeansAgree(bars, 168 + k);
    MeanIsTold(bars, 168 + k);
  }

  /** The fall of a mark, over the equities the marks show. */
  lemma FallenIs(bars: seq<Bar>, marks: seq<Mark>, n: nat)
    requires 168 + n < |bars| && n < |marks| && forall k: nat :: k <= n ==> marks[k].equity == marks[k].cash + marks[k].units * bars[168 + k].close
    ensures Fallen(bars, marks, 168 + n) <==> exists k: nat :: k < n + 1 && FallenAt(marks, k)
  {
    ShownIs(bars, marks, n);
    hide Shown;
    if Fallen(bars, marks, 168 + n) {
      var i: nat, j: nat :| i <= j <= 168 + n && Shown(bars, marks, j) <= Shown(bars, marks, i) * 0.8;
      assert j >= 168;
      if i >= 168 {
        assert marks[j - 168].equity <= marks[i - 168].equity * 0.8;
      }
      assert FallenAt(marks, j - 168);
    }
    if exists k: nat :: k < n + 1 && FallenAt(marks, k) {
      var k: nat :| k < n + 1 && FallenAt(marks, k);
      if marks[k].equity <= 10000.0 * 0.8 {
        assert Shown(bars, marks, 168 + k) <= Shown(bars, marks, 0) * 0.8;
      } else {
        var j: nat :| j <= k && marks[k].equity <= marks[j].equity * 0.8;
        assert Shown(bars, marks, 168 + k) <= Shown(bars, marks, 168 + j) * 0.8;
      }
    }
  }

  lemma ShownIs(bars: seq<Bar>, marks: seq<Mark>, n: nat)
    requires 168 + n < |bars| && n < |marks| && forall k: nat :: k <= n ==> marks[k].equity == marks[k].cash + marks[k].units * bars[168 + k].close
    ensures forall h: nat :: h <= 168 + n ==> Shown(bars, marks, h) == if h < 168 then 10000.0 else marks[h - 168].equity
  {
    forall h: nat | h <= 168 + n
      ensures Shown(bars, marks, h) == if h < 168 then 10000.0 else marks[h - 168].equity
    {
      if h < 168 {
        assert 0.0 * bars[h].close == 0.0;
      } else {
        assert marks[h - 168].equity == marks[h - 168].cash + marks[h - 168].units * bars[168 + (h - 168)].close;
      }
    }
  }

  /** Standing a fifth below the highest mark so far. */
  lemma FallenFromPeak(equities: seq<real>, marks: seq<Mark>, n: nat)
    requires n < |marks| && |equities| == n + 1 && forall k: nat :: k <= n ==> equities[k] == marks[k].equity
    ensures FallenAt(marks, n) <==> marks[n].equity <= PeakFrom(10000.0, equities) * 0.8
  {
    PeakIsMaximum(10000.0, equities);
    var peak := PeakFrom(10000.0, equities);
    hide PeakFrom;
    if marks[n].equity <= peak * 0.8 {
      var i: nat :| i <= |equities| && At(10000.0, equities, i) == peak;
      if i > 0 {
        assert marks[n].equity <= marks[i - 1].equity * 0.8;
      }
    }
    if FallenAt(marks, n) {
      assert At(10000.0, equities, 0) <= peak;
      if marks[n].equity > 10000.0 * 0.8 {
        var j: nat :| j <= n && marks[n].equity <= marks[j].equity * 0.8;
        assert At(10000.0, equities, j + 1) <= peak;
      }
    }
  }

  lemma PeakGrows(equities: seq<real>, equity: real)
    ensures PeakFrom(10000.0, equities + [equity]) == Max(PeakFrom(10000.0, equities), equity)
  {
    assert (equities + [equity])[..|equities|] == equities;
  }

  lemma DecisionsStay(bars: seq<Bar>, decisions: seq<Decision>, marks: seq<Mark>, n: nat)
    requires n < |marks| && n <= |decisions| && n + 168 < |bars|
    requires forall k: nat :: k < n ==> DecisionTold(bars, marks[..n], decisions[k], k)
    ensures forall k: nat :: k < n ==> DecisionTold(bars, marks[..n + 1], decisions[k], k)
  {
    assert marks[..n + 1] == marks[..n] + [marks[n]];
    hide DecisionTold;
    forall k: nat | k < n
      ensures DecisionTold(bars, marks[..n + 1], decisions[k], k)
    {
      DecisionStays(bars, marks[..n], marks[n], decisions[k], k);
    }
  }

  lemma MarkAudited(m: Marking, bars: seq<Bar>, start: int, end: int, fills: seq<Fill>, decisions: seq<Decision>, marks: seq<Mark>, n: nat)
    requires ValidPartition(bars, start, end) && n < |marks| && n < |decisions| && n + 169 < |bars|
    requires Ordered(fills) && (forall j: nat :: j <= |fills| ==> UnitsBefore(fills, j) >= 0.0)
    requires m.next <= |fills| && MarkingTold(m, bars, fills, decisions, marks, start - 1 + n, n)
    requires AuditMark(m, bars, fills, decisions[n], marks[n], n).Some?
    ensures MarkingTold(AuditMark(m, bars, fills, decisions[n], marks[n], n).value, bars, fills, decisions, marks, start + n, n + 1)
  {
    hide MarkTold, DecisionTold, Fallen, FallenAt, PeakFrom, ReviewedDecision, SliceMean, Consume, AuditMark, CashBefore, UnitsBefore;
    StartsAre(bars, start, end);
    var r := AuditMark(m, bars, fills, decisions[n], marks[n], n).value;
    AuditMarkIs(m, bars, fills, decisions[n], marks[n], n);
    ConsumeToLast(fills, m.next, start + n);
    PeakGrows(m.equities, marks[n].equity);
    FallenFromPeak(r.equities, marks, n);
    MarkFits(bars, fills, marks[n], 168 + n, r.next);
    MarksFit(bars, fills, marks, n + 1);
    DecisionsStay(bars, decisions, marks, n);
    FallenIs(bars, marks[..n + 1], n);
    FallenPrefix(marks, n + 1);
    ReviewedIsTold(bars, marks[..n + 1], n, r.halted);
  }

  lemma FallenPrefix(marks: seq<Mark>, n: nat)
    requires n <= |marks|
    ensures forall k: nat :: k < n ==> (FallenAt(marks[..n], k) <==> FallenAt(marks, k))
  {
    forall k: nat | k < n
      ensures FallenAt(marks[..n], k) <==> FallenAt(marks, k)
    {
      if FallenAt(marks, k) && marks[k].equity > 10000.0 * 0.8 {
        var j: nat :| j <= k && marks[k].equity <= marks[j].equity * 0.8;
        assert marks[..n][k].equity <= marks[..n][j].equity * 0.8;
      }
    }
  }

  lemma MarkFits(bars: seq<Bar>, fills: seq<Fill>, mark: Mark, h: nat, n: nat)
    requires h < |bars| && LastFill(fills, bars[h].start, n) && mark.cash == CashBefore(fills, n) && mark.units == UnitsBefore(fills, n) >= 0.0
    requires mark.closedAt == bars[h].start + 1 && mark.equity == mark.cash + mark.units * bars[h].close > 0.0
    requires mark.exposure * mark.equity == mark.units * bars[h].close
    ensures MarkTold(bars, fills, mark, h)
  {}

  /** A told mark shows cash and units at the close. */
  lemma MarksFit(bars: seq<Bar>, fills: seq<Fill>, marks: seq<Mark>, n: nat)
    requires n <= |marks| && n + 168 <= |bars| && forall k: nat :: k < n ==> MarkTold(bars, fills, marks[k], 168 + k)
    ensures forall k: nat :: k < n ==> marks[k].units >= 0.0 && marks[k].equity == marks[k].cash + marks[k].units * bars[168 + k].close
  {}

  lemma {:induction false} MarksAudited(bars: seq<Bar>, start: int, end: int, fills: seq<Fill>, decisions: seq<Decision>, marks: seq<Mark>, n: nat)
    requires ValidPartition(bars, start, end) && n <= |marks| && n <= |decisions| && n + 168 < |bars|
    requires Ordered(fills) && (forall j: nat :: j <= |fills| ==> UnitsBefore(fills, j) >= 0.0) && forall j :: 0 <= j < |fills| ==> fills[j].filledAt >= start
    requires AuditMarks(bars, fills, decisions, marks, n).Some?
    ensures MarkingTold(AuditMarks(bars, fills, decisions, marks, n).value, bars, fills, decisions, marks, start - 1 + n, n)
  {
    hide AuditMark, MarkingTold, ValidPartition;
    if n == 0 {
      NothingMarked(bars, start, fills, decisions, marks);
    } else {
      MarksAudited(bars, start, end, fills, decisions, marks, n - 1);
      MarkAudited(AuditMarks(bars, fills, decisions, marks, n - 1).value, bars, start, end, fills, decisions, marks, n - 1);
    }
  }

  lemma NothingMarked(bars: seq<Bar>, start: int, fills: seq<Fill>, decisions: seq<Decision>, marks: seq<Mark>)
    requires 168 <= |bars| && forall j :: 0 <= j < |fills| ==> fills[j].filledAt >= start
    ensures MarkingTold(UNMARKED, bars, fills, decisions, marks, start - 1, 0)
  {}

  // ----- acceptance

  /** Everything acceptance guarantees. */
  ghost predicate AcceptedTold(bars: seq<Bar>, start: int, end: int, cost: Cost, r: ReplayResult, m: TrialMetrics)
    requires |bars| >= 170
  {
    && |bars| == 168 + (end - start) + 1 && |r.marks| == |r.decisions| == end - start
    && Ordered(r.fills) && |r.fills| % 2 == 0
    && (forall k: nat :: k < |r.fills| ==> FillTold(bars, start, cost, r.fills, k) && ClockTold(r.fills[k], start, end))
    && r.cash == CashBefore(r.fills, |r.fills|) && r.units == 0.0 && r.totalFees == FeesPaid(r.fills)
    && (forall k: nat :: k < end - start ==> MarkTold(bars, r.fills, r.marks[k], 168 + k) && DecisionTold(bars, r.marks, r.decisions[k], k))
    && (forall k: nat :: k < end - start && r.decisions[k].intent != Hold ==>
          exists j: nat :: j < |r.fills| && !r.fills[j].terminal && r.fills[j].intent == r.decisions[k].intent && r.fills[j].filledAt == r.decisions[k].closedAt)
    && HoldTold(m.quarterHold, bars, cost, 0.25) && HoldTold(m.fullHold, bars, cost, 1.0) && CashTold(m.cash)
    && MoneyTold(m.strategy, r.cash, TradedIn(r.fills), r.totalFees, |r.fills| / 2, m.strategy.largestRoundTrip)
    && LargestTold(m.strategy.largestRoundTrip, r.fills, |r.fills| / 2)
  }

  lemma UnitsNonnegative(bars: seq<Bar>, start: int, cost: Cost, fills: seq<Fill>)
    requires forall k: nat :: k < |fills| ==> FillTold(bars, start, cost, fills, k)
    ensures forall j: nat :: j <= |fills| ==> UnitsBefore(fills, j) >= 0.0
  {
    forall j: nat | j <= |fills|
      ensures UnitsBefore(fills, j) >= 0.0
    {
      if j > 0 {
        assert FillTold(bars, start, cost, fills, j - 1);
      }
    }
  }

  lemma ProposalsFollowed(d: Decision, fills: seq<Fill>, start: int, end: int)
    requires Proposed(d, fills) && d.intent != Hold && forall k: nat :: k < |fills| ==> ClockTold(fills[k], start, end)
    ensures exists j: nat :: j < |fills| && !fills[j].terminal && fills[j].intent == d.intent && fills[j].filledAt == d.closedAt
  {}

  lemma StrategyMoney(final: real, equities: seq<real>, exposures: seq<real>, turnover: real, traded: real, fees: real, trips: nat, largest: real)
    requires equities != [] && turnover * 10000.0 == traded
    ensures var m := MetricsOf(final, equities, exposures, turnover, fees, trips, largest);
      MoneyTold(m, final, traded, fees, trips, m.largestRoundTrip) && m.largestRoundTrip == largest
  {
    hide WorstFall, UnderwaterHours, LongestRun, Average;
    DivMul(final - STARTING_CASH, STARTING_CASH);
  }

  lemma HoldsAreTold(bars: seq<Bar>, start: int, end: int, cost: Cost, m: TrialMetrics)
    requires ValidCost(cost) && ValidPartition(bars, start, end)
    requires ReviewBenchmark(bars, cost, 0.25) == Some(m.quarterHold) && ReviewBenchmark(bars, cost, 1.0) == Some(m.fullHold)
    ensures HoldTold(m.quarterHold, bars, cost, 0.25) && HoldTold(m.fullHold, bars, cost, 1.0)
  {
    hide Benchmark, ReviewBenchmark, HoldTold;
    BenchmarksAgree(bars, start, end, cost, 0.25);
    BenchmarksAgree(bars, start, end, cost, 1.0);
    HoldIsTold(bars, start, end, cost, 0.25);
    HoldIsTold(bars, start, end, cost, 1.0);
  }

  /** Whatever the review accepts has told fills, marks and decisions and told
      records, on any valid partition: nothing about the result is trusted. */
  lemma {:induction false} AcceptedIsTold(bars: seq<Bar>, start: int, end: int, cost: Cost, r: ReplayResult, m: TrialMetrics)
    requires ValidCost(cost) && ValidPartition(bars, start, end) && Accepts(bars, start, end, r, m, cost)
    ensures AcceptedTold(bars, start, end, cost, r, m)
  {
    hide AuditFills, AuditMarks, ByOpen, ReviewBenchmark, MetricsOf, CashMetrics, Proposed, FillTold, ClockTold, MarkTold, DecisionTold,
      HoldTold, CashTold, MoneyTold, LargestTold, FeesPaid, TradedIn, CashBefore, UnitsBefore, Ordered;
    var hours := end - start;
    var a := AuditFills(r.fills, ByOpen(bars), start, end, cost).value;
    FillsAudited(bars, start, end, cost, r.fills);
    UnitsNonnegative(bars, start, cost, r.fills);
    ClockStarts(r.fills, start, end);
    MarksAudited(bars, start, end, r.fills, r.decisions, r.marks, hours);
    assert r.marks[..hours] == r.marks;
    var marked := AuditMarks(bars, r.fills, r.decisions, r.marks, hours).value;
    HoldsAreTold(bars, start, end, cost, m);
    CashIsTold(hours);
    StrategyMoney(a.cash, marked.equities + [a.cash], marked.exposures, a.turnover, TradedIn(r.fills), a.fees, a.trips, a.largest);
    forall k: nat | k < hours && r.decisions[k].intent != Hold
      ensures exists j: nat :: j < |r.fills| && !r.fills[j].terminal && r.fills[j].intent == r.decisions[k].intent && r.fills[j].filledAt == r.decisions[k].closedAt
    {
      assert Proposed(r.decisions[k], r.fills);
      ProposalsFollowed(r.decisions[k], r.fills, start, end);
    }
  }

  lemma ClockStarts(fills: seq<Fill>, start: int, end: int)
    requires forall k: nat :: k < |fills| ==> ClockTold(fills[k], start, end)
    ensures forall j :: 0 <= j < |fills| ==> fills[j].filledAt >= start
  {}

  // ----- what acceptance does not guarantee

  const FREE := Cost(0.0, 0.0)

  /** One scored hour at an unchanging price. */
  function FlatBars(start: int): seq<Bar> { seq(170, i => Bar(start - 168 + i, 100.0, 100.0, true)) }

  /** An entry that nothing called for, and the exit the review then asks for. */
  function UnaskedFills(start: int): seq<Fill>
  {
    [Fill(start, start, EnterLong, 25.0, 100.0, 0.0, 7500.0, 25.0, false),
     Fill(start + 1, start + 1, ExitToCash, 25.0, 100.0, 0.0, 10000.0, 0.0, false)]
  }

  function UnaskedResult(start: int): ReplayResult
  {
    ReplayResult(10000.0, 0.0, 0.0, UnaskedFills(start),
                 [Decision(start + 1, 169, Some(100.0), ExitToCash, Clear, false, Some(0.0))],
                 [Mark(start + 1, 7500.0, 25.0, 10000.0, 0.25)])
  }

  lemma FlatPartition(start: int)
    ensures ValidPartition(FlatBars(start), start, start + 1) && ValidCost(FREE)
  {}

  lemma {:induction false} FlatSum(s: seq<real>)
    requires forall k :: 0 <= k < |s| ==> s[k] == 100.0
    ensures Sum(s) == 100.0 * |s| as real
  {
    if s != [] {
      FlatSum(s[..|s| - 1]);
    }
  }

  lemma FlatMean(start: int)
    ensures SliceMean(FlatBars(start), 0) == 100.0
  {
    var s := Closes(FlatBars(start), 169)[1..169];
    hide Sum;
    FlatSum(s);
  }

  lemma FlatHolds(start: int)
    ensures |FlatBars(start)| == 170 && ReviewBenchmark(FlatBars(start), FREE, 0.25).Some? && ReviewBenchmark(FlatBars(start), FREE, 1.0).Some?
  {
    FlatPartition(start);
    FlatBuyable(start);
    hide ReviewBenchmark, Benchmark, Buyable, ValidPartition;
    BenchmarksAgree(FlatBars(start), start, start + 1, FREE, 0.25);
    BenchmarksAgree(FlatBars(start), start, start + 1, FREE, 1.0);
  }

  lemma FlatBuyable(start: int)
    ensures |FlatBars(start)| == 170 && Buyable(FlatBars(start), FREE, 0.25) && Buyable(FlatBars(start), FREE, 1.0)
  {
    assert 10000.0 * 0.25 / 100.0 == 25.0 && 10000.0 * 1.0 / 100.0 == 100.0;
    assert FairPrice(100.0, true, FREE) == 100.0 && Gross(100.0, 0.0) == 100.0;
  }

  lemma UnaskedAudited(start: int)
    ensures AuditFills(UnaskedFills(start), ByOpen(FlatBars(start)), start, start + 1, FREE) == Some(Audit(10000.0, 0.0, 0.0, None, 1, 0.0, 0.5))
  {
    var bars, fills := FlatBars(start), UnaskedFills(start);
    FlatPartition(start);
    ByOpenFinds(bars, start, start + 1, 168);
    ByOpenFinds(bars, start, start + 1, 169);
    hide ByOpen, ValidPartition;
    assert fills[..1] == [fills[0]] && fills[..1][..0] == [];
    var byOpen := ByOpen(bars);
    assert byOpen[start].open == 100.0 && byOpen[start + 1].open == 100.0;
    assert RoundDownUnits(10000.0 * 0.25 * UNIT_SCALE / 100.0) == 25.0;
    assert AuditFill(UNTOUCHED, fills[0], byOpen, start, start + 1, FREE) == Some(Audit(7500.0, 25.0, 0.0, Some(2500.0), 0, 0.0, 0.25));
    assert AuditFill(Audit(7500.0, 25.0, 0.0, Some(2500.0), 0, 0.0, 0.25), fills[1], byOpen, start, start + 1, FREE)
        == Some(Audit(10000.0, 0.0, 0.0, None, 1, 0.0, 0.5));
    assert AuditFills(fills[..1][..0], byOpen, start, start + 1, FREE) == Some(UNTOUCHED);
    hide AuditFill;
    assert AuditFills(fills[..1], byOpen, start, start + 1, FREE) == Some(Audit(7500.0, 25.0, 0.0, Some(2500.0), 0, 0.0, 0.25));
    assert |fills| == 2 && AuditFills(fills, byOpen, start, start + 1, FREE) == Some(Audit(10000.0, 0.0, 0.0, None, 1, 0.0, 0.5));
  }

  lemma UnaskedMarked(start: int)
    ensures var r, bars := UnaskedResult(start), FlatBars(start);
      AuditMarks(bars, r.fills, r.decisions, r.marks, 1) == Some(Marking(1, 7500.0, 25.0, 10000.0, false, [10000.0], [0.25]))
  {
    var r, bars := UnaskedResult(start), FlatBars(start);
    FlatMean(start);
    hide SliceMean;
    assert bars[168].start == start && bars[168].close == 100.0;
    assert Consume(r.fills, 1, start) == 1;
    assert Consume(r.fills, 0, start) == 1;
    assert r.decisions[0] == ReviewedDecision(start + 1, 0, 100.0, 100.0, 25.0, false);
    assert Equity(7500.0, 25.0, 100.0) == 10000.0 && MarkedExposure(25.0, 100.0, 10000.0) == 0.25;
    assert UNMARKED.equities + [10000.0] == [10000.0] && UNMARKED.exposures + [0.25] == [0.25];
    assert SameMark(r.marks[0], start + 1, 7500.0, 25.0, 10000.0, 0.25) && SliceMean(bars, 0) == 100.0;
    assert AuditMark(UNMARKED, bars, r.fills, r.decisions[0], r.marks[0], 0) == Some(Marking(1, 7500.0, 25.0, 10000.0, false, [10000.0], [0.25]));
    hide AuditMark;
    assert AuditMarks(bars, r.fills, r.decisions, r.marks, 0) == Some(UNMARKED);
  }

  lemma UnaskedProposed(start: int)
    ensures var r := UnaskedResult(start); Proposed(r.decisions[0], r.fills) && !AllAnswer(r.fills, r.decisions)
  {
    var r := UnaskedResult(start);
    assert Proposed(r.decisions[0], r.fills) by { assert r.fills[1].intent == ExitToCash; }
    assert !AllAnswer(r.fills, r.decisions) by {
      assert !Answers(r.fills[0], r.decisions);
    }
  }

  function UnaskedMetrics(start: int): TrialMetrics
    requires |FlatBars(start)| == 170
    requires ReviewBenchmark(FlatBars(start), FREE, 0.25).Some? && ReviewBenchmark(FlatBars(start), FREE, 1.0).Some?
  {
    TrialMetrics(MetricsOf(10000.0, [10000.0] + [10000.0], [0.25], 0.5, 0.0, 1, 0.0), CashMetrics(1),
                 ReviewBenchmark(FlatBars(start), FREE, 0.25).value, ReviewBenchmark(FlatBars(start), FREE, 1.0).value)
  }

  lemma {:induction false} UnaskedPasses(start: int)
    ensures |FlatBars(start)| == 170 && ReviewBenchmark(FlatBars(start), FREE, 0.25).Some? && ReviewBenchmark(FlatBars(start), FREE, 1.0).Some?
    ensures Accepts(FlatBars(start), start, start + 1, UnaskedResult(start), UnaskedMetrics(start), FREE)
  {
    FlatHolds(start);
    UnaskedAudited(start);
    UnaskedMarked(start);
    UnaskedProposed(start);
    hide ByOpen, AuditFills, AuditMarks, ReviewBenchmark, MetricsOf, CashMetrics, FlatBars, Proposed;
  }

  lemma {:induction false} UnaskedNeverReturned(start: int)
    ensures RunValid(FlatBars(start), FREE) != Done(UnaskedResult(start))
  {
    var bars, r := FlatBars(start), UnaskedResult(start);
    FlatPartition(start);
    UnaskedProposed(start);
    hide ValidPartition, RunValid, AllAnswer, FlatBars, UnaskedResult, ValidCost;
    if RunValid(bars, FREE) == Done(r) {
      ResultIsTold(bars, start, start + 1, FREE);
    }
  }

  /** The review accepts a result whose entry no decision called for: it asks for
      a fill after every proposal, but not for a proposal before every fill.  The
      replay of the same bars does not return it. */
  lemma UnaskedAccepted(start: int) returns (m: TrialMetrics)
    ensures ValidPartition(FlatBars(start), start, start + 1) && ValidCost(FREE)
    ensures Accepts(FlatBars(start), start, start + 1, UnaskedResult(start), m, FREE)
    ensures !AllAnswer(UnaskedResult(start).fills, UnaskedResult(start).decisions)
    ensures RunValid(FlatBars(start), FREE) != Done(UnaskedResult(start))
  {
    hide ValidPartition, Accepts, RunValid, AllAnswer, FlatBars, UnaskedResult, UnaskedMetrics, Proposed;
    FlatPartition(start);
    UnaskedPasses(start);
    UnaskedProposed(start);
    UnaskedNeverReturned(start);
    m := UnaskedMetrics(start);
  }
}
