/** Two implementations of one study agree: whatever the engine replay returns,
    with the metrics the engine computes for it, the independent review accepts. */
module H1Acceptance {
  import opened Exact
  import opened Outcomes
  import opened H1Policy
  import opened H1Replay
  import opened H1Safety
  import opened H1Accounting
  import opened H1Review

  // ----- the bars by opening hour

  lemma {:induction false} ByOpenKeeps(bars: seq<Bar>, n: nat)
    requires n <= |bars| && forall j, k :: 0 <= j < k < |bars| ==> bars[j].start != bars[k].start
    ensures forall k :: 0 <= k < n ==> bars[k].start in ByOpen(bars[..n]) && ByOpen(bars[..n])[bars[k].start] == bars[k]
  {
    if n > 0 {
      ByOpenKeeps(bars, n - 1);
      assert bars[..n][..n - 1] == bars[..n - 1];
    }
  }

  lemma ByOpenFinds(bars: seq<Bar>, start: int, end: int, k: nat)
    requires ValidPartition(bars, start, end) && k < |bars|
    ensures bars[k].start == start - WARMUP + k && bars[k].open > 0.0
    ensures bars[k].start in ByOpen(bars) && ByOpen(bars)[bars[k].start] == bars[k]
  {
    forall i | 0 <= i < |bars|
      ensures bars[i].start == start - WARMUP + i
    {
      assert ValidBar(bars, start, i);
    }
    ByOpenKeeps(bars, |bars|);
    assert bars[..|bars|] == bars;
    assert ValidBar(bars, start, k);
  }

  // ----- one fill, seen by the ledger, the review and the analysis

  ghost predicate Agrees(a: Account, bars: seq<Bar>, start: int, end: int, cost: Cost)
  {
    var audited, booked := AuditFills(a.fills, ByOpen(bars), start, end, cost), BookAll(a.fills);
    && audited.Some? && booked.Some?
    && Matches(a, audited.value, booked.value)
    && audited.value.turnover == Sum(Notionals(a.fills)) / STARTING_CASH
    && a.fees == Sum(FillFees(a.fills))
  }

  ghost predicate Matches(a: Account, r: Audit, b: Books)
  {
    && r.cash == b.cash == a.cash
    && r.units == b.units == a.units
    && r.fees == a.fees
    && r.entryCost == b.entryCost
    && (r.entryCost.Some? <==> a.units > 0.0)
    && (a.units > 0.0 ==> b.entryUnits == a.units)
    && r.trips == b.trips && r.largest == b.largest
  }

  lemma RoundingAgrees(scaled: real)
    requires scaled >= 0.0
    ensures RoundDownUnits(scaled) == FloorUnits(scaled)
  {}

  lemma QuantityAgrees(cash: real, price: real)
    requires cash > 0.0 && price > 0.0
    ensures EntryQuantity(cash, price) == RoundDownUnits(cash * 0.25 * UNIT_SCALE / price)
  {
    var amount := cash * 0.25 * UNIT_SCALE;
    QuotientAtLeast(amount, price, 0.0);
    RoundingAgrees(amount / price);
  }

  /** The ledger's fill of an entry passes both other readings. */
  lemma {:induction false} EntryAgrees(a: Account, r: Audit, b: Books, byOpen: map<int, Bar>, start: int, end: int,
                    at: int, open: real, cost: Cost)
    requires GoodAccount(a) && Matches(a, r, b) && ValidCost(cost) && open > 0.0
    requires at in byOpen && byOpen[at].open == open && start <= at <= end
    requires a.units == 0.0 && FillEntry(a, at, at, open, false, cost).Done?
    ensures var a' := FillEntry(a, at, at, open, false, cost).value;
      var f := a'.fills[|a.fills|];
      && a'.fills == a.fills + [f]
      && AuditFill(r, f, byOpen, start, end, cost).Some? && Book(b, f).Some?
      && Matches(a', AuditFill(r, f, byOpen, start, end, cost).value, Book(b, f).value)
      && AuditFill(r, f, byOpen, start, end, cost).value.turnover == r.turnover + Notional(f) / STARTING_CASH
      && a'.fees == a.fees + f.fee
  {
    hide WholeUnits, EntryQuantity, RoundDownUnits, Worth, FeeOn;
    PriceFacts(open, true, cost);
    var price := Price(open, true, cost).value;
    assert price == FairPrice(open, true, cost);
    hide Price, FairPrice;
    EntryFacts(a, at, at, open, false, cost);
    EntryBound(a.cash, price);
    QuantityAgrees(a.cash, price);
  }

  lemma {:induction false} ExitAgrees(a: Account, r: Audit, b: Books, byOpen: map<int, Bar>, start: int, end: int,
                   at: int, open: real, terminal: bool, cost: Cost)
    requires GoodAccount(a) && Matches(a, r, b) && ValidCost(cost) && open > 0.0
    requires at in byOpen && byOpen[at].open == open && start <= at <= end
    requires a.units > 0.0 && (terminal ==> at == end)
    ensures var done := FillExit(a, at, at, open, terminal, cost);
      && done.Done?
      && var a' := done.value;
      var f := a'.fills[|a.fills|];
      && a'.fills == a.fills + [f]
      && AuditFill(r, f, byOpen, start, end, cost).Some? && Book(b, f).Some?
      && Matches(a', AuditFill(r, f, byOpen, start, end, cost).value, Book(b, f).value)
      && AuditFill(r, f, byOpen, start, end, cost).value.turnover == r.turnover + Notional(f) / STARTING_CASH
      && a'.fees == a.fees + f.fee
  {
    hide WholeUnits, Worth, FeeOn;
    PriceFacts(open, false, cost);
    var price := Price(open, false, cost).value;
    assert price == FairPrice(open, false, cost);
    hide Price, FairPrice;
    ExitFacts(a, at, at, open, terminal, cost);
  }

  lemma FoldsAppend(a: Account, f: Fill, bars: seq<Bar>, start: int, end: int, cost: Cost)
    requires AuditFills(a.fills, ByOpen(bars), start, end, cost).Some? && BookAll(a.fills).Some?
    ensures AuditFills(a.fills + [f], ByOpen(bars), start, end, cost)
         == AuditFill(AuditFills(a.fills, ByOpen(bars), start, end, cost).value, f, ByOpen(bars), start, end, cost)
    ensures BookAll(a.fills + [f]) == Book(BookAll(a.fills).value, f)
    ensures Sum(Notionals(a.fills + [f])) == Sum(Notionals(a.fills)) + Notional(f)
    ensures Sum(FillFees(a.fills + [f])) == Sum(FillFees(a.fills)) + f.fee
  {
    hide AuditFill, Book, Notional;
    assert (a.fills + [f])[..|a.fills|] == a.fills;
    assert Notionals(a.fills + [f]) == Notionals(a.fills) + [Notional(f)];
    assert FillFees(a.fills + [f]) == FillFees(a.fills) + [f.fee];
    SumAppend(Notionals(a.fills), Notional(f));
    SumAppend(FillFees(a.fills), f.fee);
  }

  lemma FillKeepsAgreement(a: Account, intent: Intent, at: int, open: real, terminal: bool,
                           bars: seq<Bar>, start: int, end: int, cost: Cost)
    requires GoodAccount(a) && Agrees(a, bars, start, end, cost) && ValidCost(cost) && open > 0.0
    requires at in ByOpen(bars) && ByOpen(bars)[at].open == open && start <= at <= end
    requires terminal ==> at == end && intent == ExitToCash
    requires intent == EnterLong ==> a.units == 0.0
    requires intent == ExitToCash ==> a.units > 0.0
    requires FillAt(a, intent, at, at, open, terminal, cost).Done?
    ensures Agrees(FillAt(a, intent, at, at, open, terminal, cost).value, bars, start, end, cost)
  {
    var r, b := AuditFills(a.fills, ByOpen(bars), start, end, cost).value, BookAll(a.fills).value;
    var a' := FillAt(a, intent, at, at, open, terminal, cost).value;
    if intent == EnterLong {
      EntryAgrees(a, r, b, ByOpen(bars), start, end, at, open, cost);
    } else {
      ExitAgrees(a, r, b, ByOpen(bars), start, end, at, open, terminal, cost);
    }
    var f := a'.fills[|a.fills|];
    FoldsAppend(a, f, bars, start, end, cost);
    hide FillAt, AuditFill, Book, AuditFills, BookAll, Notional, Notionals, FillFees, Matches;
    assert (Sum(Notionals(a.fills)) + Notional(f)) / STARTING_CASH == Sum(Notionals(a.fills)) / STARTING_CASH + Notional(f) / STARTING_CASH;
  }

  // ----- marks

  lemma ConsumeNone(fills: seq<Fill>, opensAt: int)
    ensures Consume(fills, |fills|, opensAt) == |fills|
  {}

  lemma {:induction false} ConsumeAppend(fills: seq<Fill>, f: Fill, next: nat, opensAt: int)
    requires next <= |fills| && f.filledAt != opensAt
    ensures Consume(fills + [f], next, opensAt) == Consume(fills, next, opensAt)
    decreases |fills| - next
  {
    if next < |fills| && fills[next].filledAt == opensAt {
      ConsumeAppend(fills, f, next + 1, opensAt);
    }
  }

  /** Later fills do not disturb marks already taken. */
  lemma {:induction false} MarksIgnoreLaterFill(bars: seq<Bar>, fills: seq<Fill>, f: Fill, decisions: seq<Decision>, marks: seq<Mark>, n: nat)
    requires n <= |decisions| && n <= |marks| && n + 168 <= |bars|
    requires forall k :: 168 <= k < 168 + n ==> bars[k].start != f.filledAt
    ensures AuditMarks(bars, fills + [f], decisions, marks, n) == AuditMarks(bars, fills, decisions, marks, n)
  {
    hide ReviewedDecision, SliceMean, Equity, MarkedExposure;
    if n > 0 {
      MarksIgnoreLaterFill(bars, fills, f, decisions, marks, n - 1);
      var m := AuditMarks(bars, fills, decisions, marks, n - 1);
      if m.Some? {
        ConsumeAppend(fills, f, m.value.next, bars[168 + n - 1].start);
        var next := Consume(fills, m.value.next, bars[168 + n - 1].start);
        assert next > 0 ==> (fills + [f])[next - 1] == fills[next - 1];
      }
    }
  }

  lemma {:induction false} MarksIgnoreLaterMark(bars: seq<Bar>, fills: seq<Fill>, decisions: seq<Decision>, marks: seq<Mark>,
                                               d: Decision, mark: Mark, n: nat)
    requires n <= |decisions| && n <= |marks| && n + 168 <= |bars|
    ensures AuditMarks(bars, fills, decisions + [d], marks + [mark], n) == AuditMarks(bars, fills, decisions, marks, n)
  {
    hide AuditMark;
    if n > 0 {
      MarksIgnoreLaterMark(bars, fills, decisions, marks, d, mark, n - 1);
    }
  }

  /** The review's running marks stand where the replay stands. */
  ghost predicate Marked(s: State, bars: seq<Bar>, i: nat)
    requires WARMUP <= i < |bars| && |s.decisions| == |s.marks| == i - WARMUP
  {
    var r := AuditMarks(bars, s.account.fills, s.decisions, s.marks, i - WARMUP);
    && r.Some?
    && var m := r.value;
    && m.next == |s.account.fills| && m.cash == s.account.cash && m.units == s.account.units
    && m.peak == Peak(s.equities) && m.halted == Halted(s.equities)
    && m.equities == Equities(s.marks) && m.exposures == Exposures(s.marks)
  }

  /** A queue mean and a slice mean are the same number. */
  lemma MeansAgree(bars: seq<Bar>, i: nat)
    requires WARMUP <= i < |bars|
    ensures Mean(Closes(bars, i + 1)) == Some(SliceMean(bars, i - WARMUP))
  {
    var index := i - WARMUP;
    assert Closes(bars, index + 169) == Closes(bars, i + 1);
    assert Closes(bars, i + 1)[index + 1..index + 169] == Closes(bars, i + 1)[i + 1 - WARMUP..];
  }

  /** The policy's decision is the one the review derives. */
  lemma DecisionsAgree(bars: seq<Bar>, i: nat, equities: seq<real>, units: real, exposure: real)
    requires WARMUP <= i < |bars| && units >= 0.0 && (units == 0.0 ==> exposure == 0.0)
    ensures Decide(bars[i].start + 1, Closes(bars, i + 1), equities, units > 0.0, exposure)
         == ReviewedDecision(bars[i].start + 1, i - WARMUP, SliceMean(bars, i - WARMUP), bars[i].close, units, Halted(equities))
  {
    MeansAgree(bars, i);
    hide Mean, SliceMean, Halted;
  }

  lemma ConsumeOne(fills: seq<Fill>, f: Fill)
    ensures Consume(fills + [f], |fills|, f.filledAt) == |fills| + 1
  {
    ConsumeNone(fills + [f], f.filledAt);
  }

  /** After the open, the review's marks still stand before the new fill. */
  ghost predicate MarkedBefore(s: State, bars: seq<Bar>, i: nat, m: Marking)
    requires WARMUP <= i < |bars| && |s.decisions| == |s.marks| == i - WARMUP
  {
    && AuditMarks(bars, s.account.fills, s.decisions, s.marks, i - WARMUP) == Some(m)
    && m.next <= |s.account.fills|
    && Consume(s.account.fills, m.next, bars[i].start) == |s.account.fills|
    && s.account.cash == (if |s.account.fills| > m.next then s.account.fills[|s.account.fills| - 1].cashAfter else m.cash)
    && s.account.units == (if |s.account.fills| > m.next then s.account.fills[|s.account.fills| - 1].unitsAfter else m.units)
    && m.peak == Peak(s.equities) && m.halted == Halted(s.equities)
    && m.equities == Equities(s.marks) && m.exposures == Exposures(s.marks)
  }

  lemma OpenKeepsMarks(s: State, bars: seq<Bar>, start: int, end: int, cost: Cost, i: nat)
    requires ValidPartition(bars, start, end) && ValidCost(cost) && WARMUP <= i < |bars|
    requires Kept(s, start, i) && Marked(s, bars, i) && OpenHour(s, bars[i], cost).Done?
    ensures var m := AuditMarks(bars, s.account.fills, s.decisions, s.marks, i - WARMUP).value;
      MarkedBefore(OpenHour(s, bars[i], cost).value, bars, i, m)
  {
    hide Price, Fee, EntryQuantity, Peak, Halted, AuditMark, WholeUnits, Worth, FeeOn, AuditMarks, Consume;
    ByOpenFinds(bars, start, end, i);
    OpenKeeps(s, bars[i], cost, start, i);
    var t := OpenHour(s, bars[i], cost).value;
    var fills := s.account.fills;
    if s.pending.Some? {
      var f := t.account.fills[|fills|];
      assert t.account.fills == fills + [f];
      forall k | 168 <= k < i
        ensures bars[k].start != f.filledAt
      {
        ByOpenFinds(bars, start, end, k);
      }
      MarksIgnoreLaterFill(bars, fills, f, s.decisions, s.marks, i - WARMUP);
      ConsumeOne(fills, f);
    } else {
      ConsumeNone(fills, bars[i].start);
    }
  }

  lemma CloseShape(s: State, bars: seq<Bar>, i: nat)
    requires WARMUP <= i < |bars| && CloseHour(s, bars, i).Done?
    ensures var t, a := CloseHour(s, bars, i).value, s.account;
      var closedAt, close := bars[i].start + 1, bars[i].close;
      && (a.units == 0.0 || Equity(a.cash, a.units, close) != 0.0)
      && var equity, exposure := Equity(a.cash, a.units, close), Exposure(a.cash, a.units, close);
      && t.account == a
      && t.equities == s.equities + [equity]
      && t.decisions == s.decisions + [Decide(closedAt, Closes(bars, i + 1), t.equities, a.units > 0.0, exposure)]
      && t.marks == s.marks + [Mark(closedAt, a.cash, a.units, equity, exposure)]
  {
    hide Decide, Equity, Exposure;
  }

  /** The review's step over a mark and a decision made from the same account. */
  lemma AuditMarkAgrees(m: Marking, bars: seq<Bar>, fills: seq<Fill>, i: nat, cash: real, units: real, before: seq<real>, next: nat)
    requires WARMUP <= i < |bars| && m.next <= |fills| && cash > 0.0 && units >= 0.0 && bars[i].close > 0.0
    requires next == Consume(fills, m.next, bars[i].start)
    requires cash == (if next > m.next then fills[next - 1].cashAfter else m.cash)
    requires units == (if next > m.next then fills[next - 1].unitsAfter else m.units)
    requires m.peak == Peak(before) && m.halted == Halted(before)
    ensures var closedAt, close := bars[i].start + 1, bars[i].close;
      && (units == 0.0 || Equity(cash, units, close) != 0.0)
      && var equity, exposure := Equity(cash, units, close), Exposure(cash, units, close);
      var equities := before + [equity];
      AuditMark(m, bars, fills, Decide(closedAt, Closes(bars, i + 1), equities, units > 0.0, exposure),
                Mark(closedAt, cash, units, equity, exposure), i - WARMUP)
      == Some(Marking(next, cash, units, Peak(equities), Halted(equities), m.equities + [equity], m.exposures + [exposure]))
  {
    var close := bars[i].close;
    EquityPositive(cash, units, close);
    var equity, exposure := Equity(cash, units, close), Exposure(cash, units, close);
    assert exposure == MarkedExposure(units, close, equity);
    var equities := before + [equity];
    DecisionsAgree(bars, i, equities, units, exposure);
    assert equities[..|equities| - 1] == before;
    assert Peak(equities) == Max(Peak(before), equity);
    assert Halted(equities) == (Halted(before) || equity <= Peak(equities) * 0.8);
    hide Equity, Exposure, MarkedExposure, Peak, Halted, Decide, ReviewedDecision, SliceMean, Closes, Consume;
  }

  lemma FilledFacts(s: State, start: int, i: nat)
    requires Filled(s, start, i)
    ensures s.account.cash > 0.0 && s.account.units >= 0.0
    ensures |s.decisions| == |s.marks| == (if i < WARMUP then 0 else i - WARMUP)
  {}

  lemma CloseKeepsMarks(s: State, bars: seq<Bar>, start: int, end: int, i: nat, m: Marking)
    requires ValidPartition(bars, start, end) && WARMUP <= i < |bars| - 1
    requires Filled(s, start, i) && MarkedBefore(s, bars, i, m)
    ensures CloseHour(s, bars, i).Done? && Kept(CloseHour(s, bars, i).value, start, i + 1)
    ensures Marked(CloseHour(s, bars, i).value, bars, i + 1)
  {
    hide CloseHour, Equity, Exposure, Peak, Halted, Decide, AuditMark, Kept, Filled, Consume;
    FilledFacts(s, start, i);
    assert ValidBar(bars, start, i);
    CloseKeeps(s, bars, start, end, i);
    CloseShape(s, bars, i);
    var t := CloseHour(s, bars, i).value;
    var n := i - WARMUP;
    AuditMarkAgrees(m, bars, s.account.fills, i, s.account.cash, s.account.units, s.equities, |s.account.fills|);
    MarksIgnoreLaterMark(bars, s.account.fills, s.decisions, s.marks, t.decisions[n], t.marks[n], n);
    assert Equities(t.marks) == Equities(s.marks) + [t.marks[n].equity];
    assert Exposures(t.marks) == Exposures(s.marks) + [t.marks[n].exposure];
  }

  /** Everything the two sides agree on before hour `i`. */
  ghost predicate Joined(s: State, bars: seq<Bar>, start: int, end: int, cost: Cost, i: nat)
    requires i < |bars|
  {
    && Kept(s, start, i)
    && Agrees(s.account, bars, start, end, cost)
    && (i <= WARMUP ==> s.account == INITIAL.account && s.pending == None && s.decisions == [] && s.marks == []
                        && forall k :: 0 <= k < i ==> s.equities[k] == STARTING_CASH)
    && (i >= WARMUP ==> Marked(s, bars, i))
  }

  lemma {:induction false} FlatHistory(equities: seq<real>)
    requires equities != [] && forall k :: 0 <= k < |equities| ==> equities[k] == STARTING_CASH
    ensures Peak(equities) == STARTING_CASH && !Halted(equities)
  {
    if |equities| > 1 {
      FlatHistory(equities[..|equities| - 1]);
    } else {
      assert equities[..0] == [];
    }
  }

  lemma WarmupStep(s: State, bars: seq<Bar>, start: int, end: int, cost: Cost, i: nat)
    requires ValidPartition(bars, start, end) && ValidCost(cost) && i < WARMUP && Joined(s, bars, start, end, cost, i)
    ensures OpenHour(s, bars[i], cost) == Done(s)
    ensures CloseHour(s, bars, i).Done? && Joined(CloseHour(s, bars, i).value, bars, start, end, cost, i + 1)
  {
    OpenKeeps(s, bars[i], cost, start, i) by { assert ValidBar(bars, start, i); }
    CloseKeeps(s, bars, start, end, i);
    var t := CloseHour(s, bars, i).value;
    assert t == s.(equities := t.equities);
    if i + 1 == WARMUP {
      FlatHistory(t.equities);
    }
  }

  lemma OpenKeepsAgreement(s: State, bars: seq<Bar>, start: int, end: int, cost: Cost, i: nat)
    requires ValidPartition(bars, start, end) && ValidCost(cost) && WARMUP <= i < |bars|
    requires Kept(s, start, i) && Agrees(s.account, bars, start, end, cost) && OpenHour(s, bars[i], cost).Done?
    ensures Agrees(OpenHour(s, bars[i], cost).value.account, bars, start, end, cost)
  {
    hide FillAt, Agrees, WholeUnits;
    ByOpenFinds(bars, start, end, i);
    if s.pending.Some? {
      FillKeepsAgreement(s.account, s.pending.value.intent, bars[i].start, bars[i].open, false, bars, start, end, cost);
    }
  }

  lemma KeptCounts(s: State, start: int, i: nat)
    requires Kept(s, start, i)
    ensures |s.decisions| == |s.marks| == (if i < WARMUP then 0 else i - WARMUP)
  {}

  lemma ScoredStep(s: State, bars: seq<Bar>, start: int, end: int, cost: Cost, i: nat)
    requires ValidPartition(bars, start, end) && ValidCost(cost) && WARMUP <= i < |bars| - 1
    requires Joined(s, bars, start, end, cost, i) && OpenHour(s, bars[i], cost).Done?
    ensures var filled := OpenHour(s, bars[i], cost).value;
      CloseHour(filled, bars, i).Done? && Joined(CloseHour(filled, bars, i).value, bars, start, end, cost, i + 1)
  {
    hide Agrees, OpenHour, CloseHour, Kept, Filled, AuditMarks, Peak, Halted;
    ByOpenFinds(bars, start, end, i);
    KeptCounts(s, start, i);
    OpenKeeps(s, bars[i], cost, start, i);
    OpenKeepsAgreement(s, bars, start, end, cost, i);
    OpenKeepsMarks(s, bars, start, end, cost, i);
    var filled := OpenHour(s, bars[i], cost).value;
    CloseKeepsMarks(filled, bars, start, end, i, AuditMarks(bars, s.account.fills, s.decisions, s.marks, i - WARMUP).value);
    CloseKeeps(filled, bars, start, end, i);
  }

  lemma InitialJoined(bars: seq<Bar>, start: int, end: int, cost: Cost)
    requires bars != []
    ensures Joined(INITIAL, bars, start, end, cost, 0)
  {
    InitialKept(start);
    hide Kept;
    assert Notionals([]) == [] && FillFees([]) == [];
  }

  lemma {:induction false} ReplayJoined(bars: seq<Bar>, start: int, end: int, cost: Cost, i: nat)
    requires ValidCost(cost) && ValidPartition(bars, start, end) && i < |bars| && Replay(bars, cost, i).Done?
    ensures Joined(Replay(bars, cost, i).value, bars, start, end, cost, i)
  {
    hide Joined, OpenHour, CloseHour;
    if i == 0 {
      InitialJoined(bars, start, end, cost);
    } else {
      ReplayJoined(bars, start, end, cost, i - 1);
      var s := Replay(bars, cost, i - 1).value;
      if i - 1 < WARMUP {
        WarmupStep(s, bars, start, end, cost, i - 1);
      } else {
        ScoredStep(s, bars, start, end, cost, i - 1);
      }
    }
  }

  // ----- the terminal open

  /** What the review needs of the settled account, relative to the last loop state. */
  ghost predicate SettledJoin(s: State, a: Account, bars: seq<Bar>, start: int, end: int, cost: Cost)
    requires |bars| == WARMUP + (end - start) + 1 && start < end && |s.decisions| == |s.marks| == end - start
  {
    var hours := end - start;
    && Agrees(a, bars, start, end, cost)
    && AuditMarks(bars, a.fills, s.decisions, s.marks, hours) == AuditMarks(bars, s.account.fills, s.decisions, s.marks, hours)
    && s.account.fills <= a.fills
    && forall k :: |s.account.fills| <= k < |a.fills| ==> a.fills[k].filledAt == end
  }

  lemma LateFill(s: State, fills: seq<Fill>, f: Fill, bars: seq<Bar>, start: int, end: int)
    requires ValidPartition(bars, start, end) && |s.decisions| == |s.marks| == end - start && f.filledAt == end
    ensures AuditMarks(bars, fills + [f], s.decisions, s.marks, end - start)
         == AuditMarks(bars, fills, s.decisions, s.marks, end - start)
  {
    forall k | 168 <= k < 168 + (end - start)
      ensures bars[k].start != f.filledAt
    {
      ByOpenFinds(bars, start, end, k);
    }
    MarksIgnoreLaterFill(bars, fills, f, s.decisions, s.marks, end - start);
  }

  lemma FillAppends(a: Account, intent: Intent, at: int, open: real, terminal: bool, cost: Cost)
    requires FillAt(a, intent, at, at, open, terminal, cost).Done?
    ensures var fills := FillAt(a, intent, at, at, open, terminal, cost).value.fills;
      |fills| == |a.fills| + 1 && fills == a.fills + [fills[|a.fills|]] && fills[|a.fills|].filledAt == at
  {
    hide Price, Fee, EntryQuantity;
  }

  lemma SettleJoined(s: State, bars: seq<Bar>, start: int, end: int, cost: Cost)
    requires ValidPartition(bars, start, end) && ValidCost(cost)
    requires Joined(s, bars, start, end, cost, |bars| - 1) && Settle(s, bars[|bars| - 1], cost).Done?
    ensures |s.decisions| == |s.marks| == end - start
    ensures SettledJoin(s, Settle(s, bars[|bars| - 1], cost).value.account, bars, start, end, cost)
  {
    hide Agrees, FillAt, AuditMarks, WholeUnits;
    var n := |bars| - 1;
    var last := bars[n];
    ByOpenFinds(bars, start, end, n);
    OpenKeeps(s, last, cost, start, n);
    OpenKeepsAgreement(s, bars, start, end, cost, n);
    var filled := OpenHour(s, last, cost).value;
    if s.pending.Some? {
      FillAppends(s.account, s.pending.value.intent, last.start, last.open, false, cost);
      LateFill(s, s.account.fills, filled.account.fills[|s.account.fills|], bars, start, end);
    }
    if filled.account.units > 0.0 {
      FillKeepsAgreement(filled.account, ExitToCash, last.start, last.open, true, bars, start, end, cost);
      FillAppends(filled.account, ExitToCash, last.start, last.open, true, cost);
      var t := Settle(s, last, cost).value;
      LateFill(s, filled.account.fills, t.account.fills[|filled.account.fills|], bars, start, end);
    }
  }

  // ----- the benchmarks

  /** Bars whose prices the benchmarks read are positive. */
  lemma HoldIsValid(bars: seq<Bar>, start: int, end: int, cash: real, units: real, final: real)
    requires ValidPartition(bars, start, end) && cash >= 0.0 && units > 0.0 && final > 0.0
    ensures 0.0 !in HoldMarks(bars, cash, units)
    ensures ValidMarks(HoldMarks(bars, cash, units) + [final], HoldExposures(bars, cash, units))
  {
    var marks := HoldMarks(bars, cash, units);
    forall k | 0 <= k < |marks|
      ensures marks[k] > 0.0 && 0.0 <= Worth(units, bars[168 + k].close) / marks[k] <= 1.0
    {
      assert ValidBar(bars, start, 168 + k);
      var part := Worth(units, bars[168 + k].close);
      MulPos(units, bars[168 + k].close);
      QuotientAtLeast(part, marks[k], 0.0);
      QuotientAtMost(part, marks[k], 1.0);
    }
    var exposures := HoldExposures(bars, cash, units);
    forall k | 0 <= k < |exposures|
      ensures 0.0 <= exposures[k] <= 1.0
    {
      assert exposures[k] == Worth(units, bars[168 + k].close) / marks[k];
    }
  }

  predicate Buyable(bars: seq<Bar>, cost: Cost, allocation: real)
    requires |bars| >= 170
  {
    var buy := FairPrice(bars[168].open, true, cost);
    buy > 0.0 && Gross(buy, cost.fee) > 0.0 && BenchmarkUnits(buy, cost.fee, allocation) > 0.0
  }

  lemma UnitsWithinCash(buy: real, cost: Cost, allocation: real)
    requires buy > 0.0 && ValidCost(cost) && Gross(buy, cost.fee) > 0.0 && allocation >= 0.0
    ensures var units := BenchmarkUnits(buy, cost.fee, allocation);
      && units == RoundDownUnits(Min(STARTING_CASH * allocation / buy, STARTING_CASH / Gross(buy, cost.fee)) * UNIT_SCALE)
      && STARTING_CASH - Worth(units, buy) - FairFee(units, buy, cost) >= 0.0
  {
    var gross := Gross(buy, cost.fee);
    var units := BenchmarkUnits(buy, cost.fee, allocation);
    QuotientAtLeast(STARTING_CASH * allocation, buy, 0.0);
    QuotientAtLeast(STARTING_CASH, gross, 0.0);
    var wanted := Min(STARTING_CASH * allocation / buy, STARTING_CASH / gross);
    RoundingAgrees(wanted * UNIT_SCALE);
    FloorWithin(wanted);
    assert units <= STARTING_CASH / gross;
    UnitsPaid(units, buy, cost);
  }

  lemma UnitsPaid(units: real, buy: real, cost: Cost)
    requires Gross(buy, cost.fee) > 0.0 && units <= STARTING_CASH / Gross(buy, cost.fee)
    ensures STARTING_CASH - Worth(units, buy) - FairFee(units, buy, cost) >= 0.0
  {
    Affordable(STARTING_CASH, units, buy, cost.fee);
  }

  lemma PricesAgree(open: real, buy: bool, cost: Cost)
    requires open > 0.0 && ValidCost(cost)
    ensures Price(open, buy, cost) == Some(FairPrice(open, buy, cost)) && FairPrice(open, buy, cost) > 0.0
  {
    PriceFacts(open, buy, cost);
    assert Price(open, buy, cost).value == FairPrice(open, buy, cost);
  }

  lemma FeesAgree(quantity: real, price: real, cost: Cost)
    requires quantity > 0.0 && price > 0.0 && ValidCost(cost)
    ensures Fee(quantity, price, cost) == Some(FairFee(quantity, price, cost))
    ensures 0.0 <= FairFee(quantity, price, cost) < Worth(quantity, price)
  {
    hide Worth, FeeOn;
    FeeFacts(quantity, price, cost);
  }

  /** Both benchmark computations fail exactly when no unit can be bought, and otherwise agree. */
  lemma {:induction false} BenchmarksAgree(bars: seq<Bar>, start: int, end: int, cost: Cost, allocation: real)
    requires ValidPartition(bars, start, end) && ValidCost(cost) && allocation >= 0.0
    ensures Benchmark(bars, cost, allocation) == ReviewBenchmark(bars, cost, allocation)
    ensures Benchmark(bars, cost, allocation).Some? <==> Buyable(bars, cost, allocation)
  {
    hide Price, FairPrice, Fee, FairFee, BenchmarkUnits, MetricsOf, HoldMarks, HoldExposures, ValidMarks, RoundDownUnits,
         Worth, Gross, FeeOn;
    assert ValidBar(bars, start, 168);
    assert ValidBar(bars, start, |bars| - 1);
    PricesAgree(bars[168].open, true, cost);
    PricesAgree(bars[|bars| - 1].open, false, cost);
    var buy, sell := FairPrice(bars[168].open, true, cost), FairPrice(bars[|bars| - 1].open, false, cost);
    GrossPositive(buy, cost.fee);
    var units := BenchmarkUnits(buy, cost.fee, allocation);
    UnitsWithinCash(buy, cost, allocation);
    if units > 0.0 {
      FeesAgree(units, buy, cost);
      FeesAgree(units, sell, cost);
      var cash := STARTING_CASH - Worth(units, buy) - FairFee(units, buy, cost);
      HoldIsValid(bars, start, end, cash, units, cash + Worth(units, sell) - FairFee(units, sell, cost));
    }
  }

  // ----- the theorem

  lemma ProposedWhenFollowed(d: Decision, fills: seq<Fill>)
    requires Followed(d, fills)
    ensures Proposed(d, fills)
  {}

  lemma SettledOrder(fills: seq<Fill>, start: int, end: int)
    requires SettledTape(fills, start, end)
    ensures Ordered(fills)
  {
    if !GoodTape(fills, start, end + 1) {
      var front := fills[..|fills| - 1];
      assert forall k :: 0 <= k < |front| ==> fills[k] == front[k];
    }
  }

  /** The last loop state `s` and the settled state `t` behind a result, and all that is known of them. */
  lemma RunStates(bars: seq<Bar>, start: int, end: int, cost: Cost) returns (s: State, t: State)
    requires ValidCost(cost) && ValidPartition(bars, start, end) && RunValid(bars, cost).Done?
    ensures RunValid(bars, cost).value
         == ReplayResult(t.account.cash, t.account.units, t.account.fees, t.account.fills, s.decisions, s.marks)
    ensures t.account.units == 0.0 && t.account.cash > 0.0
    ensures |s.decisions| == |s.marks| == end - start
    ensures Kept(s, start, |bars| - 1) && Marked(s, bars, |bars| - 1)
    ensures SettledJoin(s, t.account, bars, start, end, cost)
    ensures SettledTape(t.account.fills, start, end)
    ensures forall k :: 0 <= k < |s.decisions| ==> Followed(s.decisions[k], t.account.fills)
  {
    hide Replay, Settle, Kept, Agrees, Marked, SettledJoin, SettledTape, Followed;
    var n := |bars| - 1;
    ReplayJoined(bars, start, end, cost, n);
    s := Replay(bars, cost, n).value;
    ByOpenFinds(bars, start, end, n);
    SettleKeeps(s, bars[n], cost, start, end);
    SettleJoined(s, bars, start, end, cost);
    t := Settle(s, bars[n], cost).value;
  }

  lemma GoodMarks(s: State, start: int, i: nat, cash: real)
    requires Kept(s, start, i) && cash > 0.0
    ensures ValidMarks(Equities(s.marks) + [cash], Exposures(s.marks))
  {
    hide GoodAccount, GoodTape, GoodPending, GoodFollow;
  }

  lemma {:induction false} AnalysisOfRun(bars: seq<Bar>, start: int, end: int, cost: Cost)
    requires ValidCost(cost) && ValidPartition(bars, start, end) && RunValid(bars, cost).Done?
    ensures var run := RunValid(bars, cost).value;
      var books := BookAll(run.fills);
      && books.Some?
      && AnalysisOf(bars, start, run, cost) ==
         (if Benchmark(bars, cost, 0.25).None? || Benchmark(bars, cost, 1.0).None? then None
          else Some(TrialMetrics(
            MetricsOf(run.cash, Equities(run.marks) + [run.cash], Exposures(run.marks),
                      Sum(Notionals(run.fills)) / STARTING_CASH, run.totalFees, books.value.trips, books.value.largest),
            CashMetrics(end - start), Benchmark(bars, cost, 0.25).value, Benchmark(bars, cost, 1.0).value)))
  {
    hide BookAll, Benchmark, MetricsOf, Sum, Notionals, FillFees, AuditFills, AuditMarks, RunValid, Kept, Marked,
         SettledTape, Followed, ValidMarks, Equities, Exposures;
    var s, t := RunStates(bars, start, end, cost);
    ByOpenFinds(bars, start, end, 168);
    GoodMarks(s, start, |bars| - 1, t.account.cash);
  }

  /** Every result the engine replay returns, with the metrics the engine
      computes for it, is accepted by the independent review. */
  lemma {:induction false} ReviewAcceptsRun(bars: seq<Bar>, start: int, end: int, cost: Cost)
    requires ValidCost(cost) && ValidPartition(bars, start, end) && RunValid(bars, cost).Done?
    requires AnalysisOf(bars, start, RunValid(bars, cost).value, cost).Some?
    ensures Accepts(bars, start, end, RunValid(bars, cost).value,
                    AnalysisOf(bars, start, RunValid(bars, cost).value, cost).value, cost)
  {
    hide BookAll, Benchmark, ReviewBenchmark, MetricsOf, Sum, Notionals, FillFees, AuditFills, AuditMarks, RunValid, Kept,
         SettledTape, AnalysisOf, Followed, Proposed, ByOpen, Equities, Exposures, Ordered, CashMetrics;
    var s, t := RunStates(bars, start, end, cost);
    var run := RunValid(bars, cost).value;
    AnalysisOfRun(bars, start, end, cost);
    SettledOrder(run.fills, start, end);
    BenchmarksAgree(bars, start, end, cost, 0.25);
    BenchmarksAgree(bars, start, end, cost, 1.0);
    forall k | 0 <= k < end - start
      ensures Proposed(run.decisions[k], run.fills)
    {
      ProposedWhenFollowed(run.decisions[k], run.fills);
    }
  }

  /** The engine's metrics fail on a replay result exactly when a benchmark cannot buy one unit. */
  lemma {:induction false} AnalysisFailsOnlyForBenchmarks(bars: seq<Bar>, start: int, end: int, cost: Cost)
    requires ValidCost(cost) && ValidPartition(bars, start, end) && RunValid(bars, cost).Done?
    ensures AnalysisOf(bars, start, RunValid(bars, cost).value, cost).Some? <==>
            Buyable(bars, cost, 0.25) && Buyable(bars, cost, 1.0)
  {
    AnalysisOfRun(bars, start, end, cost);
    BenchmarksAgree(bars, start, end, cost, 0.25);
    BenchmarksAgree(bars, start, end, cost, 1.0);
    hide Benchmark, ReviewBenchmark, RunValid, AnalysisOf, MetricsOf, BookAll, Buyable;
  }

  /** The same statement about the three procedures themselves: for any input,
      once the engine replays and analyses it, the review accepts. */
  method RunAnalyzeReview(bars: seq<Bar>, start: int, end: int, cost: Cost)
    returns (run: Outcome<ReplayResult, Fault>, metrics: Option<TrialMetrics>, accepted: bool)
    ensures run.Thrown? ==> metrics == None && !accepted
    ensures accepted <==> metrics.Some?
    ensures run.Done? && |bars| >= 170 && Buyable(bars, cost, 0.25) && Buyable(bars, cost, 1.0) ==> accepted
    ensures ValidCost(cost) && ValidPartition(bars, start, end) && run.Thrown? ==> run.fault == ZeroUnits
  {
    hide RunValid, AnalysisOf, Accepts, Buyable;
    run := Run(bars, start, end, cost);
    if run.Thrown? {
      if ValidCost(cost) && ValidPartition(bars, start, end) {
        RunSafety(bars, start, end, cost);
      }
      return run, None, false;
    }
    metrics := Analyze(bars, start, run.value, cost);
    AnalysisFailsOnlyForBenchmarks(bars, start, end, cost);
    if metrics.None? {
      return run, None, false;
    }
    ReviewAcceptsRun(bars, start, end, cost);
    accepted := ReviewCase(bars, start, end, run.value, metrics.value, cost);
  }
}
