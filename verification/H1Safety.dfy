/** What the H1 replay keeps from bar to bar, and what therefore holds of every
    result: it can only throw for a zero-unit entry, fills alternate and follow
    their proposals by one open, the account ends flat, and a drawdown halt
    leaves room for at most one more fill, an exit. */
module H1Safety {
  import opened Exact
  import opened H1Policy
  import opened H1Replay

  /** Entry and exit take turns, starting with an entry. */
  function TurnOf(k: nat): Intent { if k % 2 == 0 then EnterLong else ExitToCash }

  ghost predicate Followed(d: Decision, fills: seq<Fill>)
  {
    d.intent != Hold ==>
      exists k :: 0 <= k < |fills| && fills[k].intent == d.intent && fills[k].signalClosed == d.closedAt &&
                  fills[k].filledAt == d.closedAt && !fills[k].terminal
  }

  /** The recorded fills: alternating, at the open that ended their signal hour, one per open. */
  ghost predicate GoodTape(fills: seq<Fill>, start: int, before: int)
  {
    && (forall k: nat :: k < |fills| ==>
          && fills[k].intent == TurnOf(k)
          && !fills[k].terminal
          && fills[k].signalClosed == fills[k].filledAt
          && start < fills[k].filledAt < before)
    && (forall j, k :: 0 <= j < k < |fills| ==> fills[j].filledAt < fills[k].filledAt)
  }

  ghost predicate GoodAccount(a: Account)
  {
    && a.cash > 0.0
    && a.units >= 0.0
    && WholeUnits(a.units)
    && (a.units > 0.0 <==> |a.fills| % 2 == 1)
  }

  ghost predicate GoodPending(s: State, open: int)
  {
    match s.pending
    case None => s.decisions == [] || s.decisions[|s.decisions| - 1].intent == Hold
    case Some(d) =>
      && s.decisions != []
      && d == s.decisions[|s.decisions| - 1]
      && d.intent != Hold
      && d.closedAt == open
      && (d.intent == EnterLong <==> s.account.units == 0.0)
  }

  ghost predicate GoodRecord(s: State, start: int, i: nat)
  {
    && |s.equities| == i
    && (forall k :: 0 <= k < i ==> s.equities[k] > 0.0)
    && |s.decisions| == |s.marks| == (if i < WARMUP then 0 else i - WARMUP)
    && (forall k :: 0 <= k < |s.decisions| ==> s.decisions[k].closedAt == start + k + 1)
    && (forall k :: 0 <= k < |s.marks| ==> s.marks[k].equity > 0.0 && 0.0 <= s.marks[k].exposure <= 1.0)
  }

  /** Every proposal but a pending last one has been filled. */
  ghost predicate GoodFollow(s: State)
  {
    forall k :: 0 <= k < |s.decisions| && !(s.pending.Some? && k == |s.decisions| - 1) ==>
      Followed(s.decisions[k], s.account.fills)
  }

  ghost predicate Kept(s: State, start: int, i: nat)
  {
    && GoodAccount(s.account)
    && GoodTape(s.account.fills, start, start - WARMUP + i)
    && GoodPending(s, start - WARMUP + i)
    && GoodRecord(s, start, i)
    && GoodFollow(s)
  }

  lemma PriceFacts(open: real, buy: bool, cost: Cost)
    requires open > 0.0 && ValidCost(cost)
    ensures Price(open, buy, cost).Some? && Price(open, buy, cost).value > 0.0
  {
    MulPos(open, if buy then 1.0 + cost.adverse else 1.0 - cost.adverse);
  }

  lemma QuotientBound(q: real, price: real, amount: real)
    requires price > 0.0 && q <= amount / price
    ensures q * price <= amount
  {
    MulMono(q, amount / price, price);
    DivMul(amount, price);
  }

  /** The rounded quantity spends no more than a quarter of cash. */
  lemma EntryBound(cash: real, price: real)
    requires price > 0.0
    ensures WholeUnits(EntryQuantity(cash, price))
    ensures Worth(EntryQuantity(cash, price), price) <= cash * ENTRY_TARGET
  {
    var q := EntryQuantity(cash, price);
    var scaled := cash * ENTRY_TARGET * UNIT_SCALE / price;
    FloorUnitsFacts(scaled);
    QuotientBound(q * UNIT_SCALE, price, cash * ENTRY_TARGET * UNIT_SCALE);
    assert q * UNIT_SCALE * price == Worth(q, price) * UNIT_SCALE;
  }

  lemma FeeFacts(quantity: real, price: real, cost: Cost)
    requires quantity > 0.0 && price > 0.0 && ValidCost(cost)
    ensures Fee(quantity, price, cost).Some? && 0.0 <= Fee(quantity, price, cost).value < Worth(quantity, price)
  {
    FeeWithin(quantity, price, cost.fee);
  }

  /** One fill with these terms was added at the end. */
  ghost predicate Appended(before: seq<Fill>, after: seq<Fill>, intent: Intent, signalClosed: int, filledAt: int, terminal: bool)
  {
    && |after| == |before| + 1
    && after == before + [after[|before|]]
    && var f := after[|before|];
    && f.intent == intent && f.signalClosed == signalClosed && f.filledAt == filledAt && f.terminal == terminal
  }

  /** An affordable entry: it can only fail by rounding to zero units. */
  lemma EntryFacts(a: Account, signalClosed: int, filledAt: int, open: real, terminal: bool, cost: Cost)
    requires GoodAccount(a) && a.units == 0.0 && open > 0.0 && ValidCost(cost)
    ensures var r := FillEntry(a, signalClosed, filledAt, open, terminal, cost);
      && (r.Thrown? ==> r.fault == ZeroUnits)
      && (r.Done? ==> GoodAccount(r.value) && r.value.units > 0.0 &&
                      Appended(a.fills, r.value.fills, EnterLong, signalClosed, filledAt, terminal))
  {
    hide Price, Fee, EntryQuantity, WholeUnits, Worth;
    PriceFacts(open, true, cost);
    var price := Price(open, true, cost).value;
    EntryBound(a.cash, price);
    if EntryQuantity(a.cash, price) > 0.0 {
      FeeFacts(EntryQuantity(a.cash, price), price, cost);
    }
  }

  lemma ExitFacts(a: Account, signalClosed: int, filledAt: int, open: real, terminal: bool, cost: Cost)
    requires GoodAccount(a) && a.units > 0.0 && open > 0.0 && ValidCost(cost)
    ensures var r := FillExit(a, signalClosed, filledAt, open, terminal, cost);
      r.Done? && GoodAccount(r.value) && r.value.units == 0.0 &&
      Appended(a.fills, r.value.fills, ExitToCash, signalClosed, filledAt, terminal)
  {
    hide Price, Fee, Worth;
    PriceFacts(open, false, cost);
    FeeFacts(a.units, Price(open, false, cost).value, cost);
  }

  lemma FollowedStays(d: Decision, fills: seq<Fill>, f: Fill)
    requires Followed(d, fills)
    ensures Followed(d, fills + [f])
  {
    if d.intent != Hold {
      var k :| 0 <= k < |fills| && fills[k].intent == d.intent && fills[k].signalClosed == d.closedAt &&
               fills[k].filledAt == d.closedAt && !fills[k].terminal;
      assert (fills + [f])[k] == fills[k];
    }
  }

  /** After the open there is no proposal left waiting, and all are followed. */
  ghost predicate Filled(s: State, start: int, i: nat)
  {
    && GoodAccount(s.account)
    && GoodTape(s.account.fills, start, start - WARMUP + i + 1)
    && s.pending == None
    && GoodRecord(s, start, i)
    && GoodFollow(s)
  }

  lemma OpenKeeps(s: State, bar: Bar, cost: Cost, start: int, i: nat)
    requires Kept(s, start, i) && ValidCost(cost) && bar.open > 0.0 && bar.start == start - WARMUP + i
    ensures var r := OpenHour(s, bar, cost);
      && (r.Thrown? ==> r.fault == ZeroUnits)
      && (r.Done? ==> Filled(r.value, start, i) && r.value == s.(account := r.value.account, pending := None))
  {
    if s.pending.Some? {
      hide FillEntry, FillExit, WholeUnits;
      var d := s.pending.value;
      var r := OpenHour(s, bar, cost);
      if d.intent == EnterLong {
        EntryFacts(s.account, d.closedAt, bar.start, bar.open, false, cost);
      } else {
        ExitFacts(s.account, d.closedAt, bar.start, bar.open, false, cost);
      }
      if r.Done? {
        var fills := s.account.fills;
        var f := r.value.account.fills[|fills|];
        forall k | 0 <= k < |s.decisions|
          ensures Followed(s.decisions[k], fills + [f])
        {
          if k == |s.decisions| - 1 {
            assert (fills + [f])[|fills|] == f;
          } else {
            FollowedStays(s.decisions[k], fills, f);
          }
        }
      }
    } else {
      forall k | 0 <= k < |s.decisions|
        ensures Followed(s.decisions[k], s.account.fills)
      {}
    }
  }

  lemma EquityPositive(cash: real, units: real, close: real)
    requires cash > 0.0 && units >= 0.0 && close > 0.0
    ensures Equity(cash, units, close) > 0.0
    ensures 0.0 <= Exposure(cash, units, close) <= 1.0
    ensures Exposure(cash, units, close) == Worth(units, close) / Equity(cash, units, close)
  {
    MulNonneg(units, close);
    var part, whole := Worth(units, close), Equity(cash, units, close);
    QuotientAtLeast(part, whole, 0.0);
    QuotientAtMost(part, whole, 1.0);
  }

  lemma CloseKeeps(s: State, bars: seq<Bar>, start: int, end: int, i: nat)
    requires ValidPartition(bars, start, end) && i < |bars| - 1 && Filled(s, start, i)
    ensures var r := CloseHour(s, bars, i); r.Done? && Kept(r.value, start, i + 1)
    ensures var r := CloseHour(s, bars, i).value;
      && r.account == s.account
      && r.equities == s.equities + [Equity(s.account.cash, s.account.units, bars[i].close)]
  {
    hide Mean, Halted, Followed, Equity, Exposure, WholeUnits;
    assert ValidBar(bars, start, i);
    EquityPositive(s.account.cash, s.account.units, bars[i].close);
    var r := CloseHour(s, bars, i).value;
    assert r.account == s.account;
    if i >= WARMUP {
      var d := r.decisions[|r.decisions| - 1];
      assert r.decisions == s.decisions + [d];
      if d.intent == Hold {
        assert Followed(d, s.account.fills) by { HoldFollowed(d, s.account.fills); }
      }
    }
  }

  lemma HoldFollowed(d: Decision, fills: seq<Fill>)
    requires d.intent == Hold
    ensures Followed(d, fills)
  {}

  lemma InitialKept(start: int)
    ensures Kept(INITIAL, start, 0)
  {}

  /** Until it throws, the replay keeps all of this; and it throws only for a zero-unit entry. */
  lemma {:induction false} ReplayKeeps(bars: seq<Bar>, start: int, end: int, cost: Cost, i: nat)
    requires ValidCost(cost) && ValidPartition(bars, start, end) && i < |bars|
    ensures var r := Replay(bars, cost, i);
      && (r.Thrown? ==> r.fault == ZeroUnits)
      && (r.Done? ==> Kept(r.value, start, i))
  {
    hide Kept, Filled, OpenHour, CloseHour;
    if i == 0 {
      InitialKept(start);
    } else {
      ReplayKeeps(bars, start, end, cost, i - 1);
      var r := Replay(bars, cost, i - 1);
      assert ValidBar(bars, start, i - 1);
      if r.Done? {
        OpenKeeps(r.value, bars[i - 1], cost, start, i - 1);
        var filled := OpenHour(r.value, bars[i - 1], cost);
        if filled.Done? {
          CloseKeeps(filled.value, bars, start, end, i - 1);
        }
      }
    }
  }

  /** The settled tape may end with one terminal exit at the last open. */
  ghost predicate SettledTape(fills: seq<Fill>, start: int, end: int)
  {
    && |fills| % 2 == 0
    && (forall k: nat :: k < |fills| ==> fills[k].intent == TurnOf(k))
    && ((fills != [] && fills[|fills| - 1].terminal && fills[|fills| - 1].filledAt == end
         && GoodTape(fills[..|fills| - 1], start, end + 1))
        || GoodTape(fills, start, end + 1))
  }

  lemma SettleKeeps(s: State, bar: Bar, cost: Cost, start: int, end: int)
    requires start < end && Kept(s, start, WARMUP + (end - start)) && ValidCost(cost)
    requires bar.open > 0.0 && bar.start == end
    ensures var r := Settle(s, bar, cost);
      && (r.Thrown? ==> r.fault == ZeroUnits)
      && (r.Done? ==>
            && Report(r.value).Done?
            && r.value == s.(account := r.value.account, pending := None)
            && SettledTape(r.value.account.fills, start, end)
            && forall k :: 0 <= k < |s.decisions| ==> Followed(s.decisions[k], r.value.account.fills))
  {
    hide OpenHour, FillExit, FillEntry, WholeUnits;
    var i := WARMUP + (end - start);
    OpenKeeps(s, bar, cost, start, i);
    var filled := OpenHour(s, bar, cost);
    if filled.Done? && filled.value.account.units > 0.0 {
      var a := filled.value.account;
      ExitFacts(a, bar.start, bar.start, bar.open, true, cost);
      var fills := Settle(s, bar, cost).value.account.fills;
      assert fills[..|fills| - 1] == a.fills;
      var f := fills[|a.fills|];
      forall k | 0 <= k < |s.decisions|
        ensures Followed(s.decisions[k], fills)
      {
        FollowedStays(s.decisions[k], a.fills, f);
      }
    }
  }

  /** Safety of whole runs: on a valid partition and valid rates the replay
      throws only when an entry rounds to zero units; otherwise it ends flat
      with positive cash, its fills alternate, and every non-hold scored
      decision was filled at exactly the next open. */
  lemma {:induction false} RunSafety(bars: seq<Bar>, start: int, end: int, cost: Cost)
    requires ValidCost(cost) && ValidPartition(bars, start, end)
    ensures var r := RunValid(bars, cost);
      && (r.Thrown? ==> r.fault == ZeroUnits)
      && (r.Done? ==>
            && r.value.units == 0.0 && r.value.cash > 0.0
            && |r.value.decisions| == |r.value.marks| == end - start
            && SettledTape(r.value.fills, start, end)
            && forall k :: 0 <= k < end - start ==>
                 r.value.decisions[k].closedAt == start + k + 1 && Followed(r.value.decisions[k], r.value.fills))
  {
    hide Replay, Settle, Kept, SettledTape, Followed, ValidCost, ValidPartition;
    PartitionEnd(bars, start, end);
    var n := |bars| - 1;
    ReplayKeeps(bars, start, end, cost, n);
    var s := Replay(bars, cost, n);
    if s.Done? {
      KeptRecord(s.value, start, n);
      SettleKeeps(s.value, bars[n], cost, start, end);
      if Settle(s.value, bars[n], cost).Done? {
        ReportIs(Settle(s.value, bars[n], cost).value);
      }
    }
  }

  lemma PartitionEnd(bars: seq<Bar>, start: int, end: int)
    requires ValidPartition(bars, start, end)
    ensures start < end && |bars| - 1 == WARMUP + (end - start)
    ensures bars[|bars| - 1].open > 0.0 && bars[|bars| - 1].start == end
  {
    assert ValidBar(bars, start, |bars| - 1);
  }

  lemma KeptRecord(s: State, start: int, i: nat)
    requires Kept(s, start, i) && i >= WARMUP
    ensures |s.decisions| == |s.marks| == i - WARMUP
    ensures forall k :: 0 <= k < |s.decisions| ==> s.decisions[k].closedAt == start + k + 1
  {}

  lemma ReportIs(s: State)
    requires Report(s).Done?
    ensures Report(s).value == ReplayResult(s.account.cash, s.account.units, s.account.fees, s.account.fills, s.decisions, s.marks)
    ensures s.account.units == 0.0 && s.account.cash > 0.0
  {}

  // ----- the drawdown halt

  /** Since the halt at `time` either nothing was filled, or only the last fill, an exit, was. */
  ghost predicate Quiet(fills: seq<Fill>, units: real, time: int)
  {
    forall k: nat :: k < |fills| && fills[k].filledAt >= time ==>
      k == |fills| - 1 && fills[k].intent == ExitToCash && units == 0.0
  }

  ghost predicate Halting(s: State, time: int)
  {
    && Halted(s.equities)
    && Quiet(s.account.fills, s.account.units, time)
    && (s.pending.Some? ==> s.pending.value.intent == ExitToCash)
  }

  /** Once halted at hour `h`, every later state is halted and quiet. */
  lemma {:induction false} HaltHolds(bars: seq<Bar>, start: int, end: int, cost: Cost, h: nat, i: nat)
    requires ValidCost(cost) && ValidPartition(bars, start, end) && h < i < |bars|
    requires Replay(bars, cost, i).Done? && Replay(bars, cost, h + 1).Done?
    requires Halted(Replay(bars, cost, h + 1).value.equities)
    ensures Halting(Replay(bars, cost, i).value, bars[h].start + 1)
  {
    hide OpenHour, CloseHour, Kept, Filled, Halted, Quiet;
    ReplayKeeps(bars, start, end, cost, i - 1);
    assert ValidBar(bars, start, h) && ValidBar(bars, start, i - 1);
    var time := bars[h].start + 1;
    var s := Replay(bars, cost, i - 1).value;
    OpenKeeps(s, bars[i - 1], cost, start, i - 1);
    var filled := OpenHour(s, bars[i - 1], cost).value;
    CloseKeeps(filled, bars, start, end, i - 1);
    if i > h + 1 {
      HaltHolds(bars, start, end, cost, h, i - 1);
      UnitsNonnegative(s, start, i - 1);
      HaltedOpen(s, bars[i - 1], cost, time);
      HaltedStays(s.equities, Equity(filled.account.cash, filled.account.units, bars[i - 1].close));
    } else {
      QuietBefore(filled, start, i - 1, time);
    }
    NothingPending(filled, start, i - 1);
    HaltedClose(filled, bars, i - 1);
  }

  lemma UnitsNonnegative(s: State, start: int, i: nat)
    requires Kept(s, start, i)
    ensures s.account.units >= 0.0
  {}

  lemma NothingPending(s: State, start: int, i: nat)
    requires Filled(s, start, i)
    ensures s.pending == None
  {}

  lemma HaltedStays(equities: seq<real>, equity: real)
    requires Halted(equities)
    ensures Halted(equities + [equity])
  {
    assert (equities + [equity])[..|equities|] == equities;
  }

  lemma QuietBefore(s: State, start: int, i: nat, time: int)
    requires Filled(s, start, i) && time > start - WARMUP + i
    ensures Quiet(s.account.fills, s.account.units, time)
  {}

  lemma HaltedOpen(s: State, bar: Bar, cost: Cost, time: int)
    requires Halting(s, time) && OpenHour(s, bar, cost).Done? && s.account.units >= 0.0
    ensures var r := OpenHour(s, bar, cost).value;
      Quiet(r.account.fills, r.account.units, time)
  {
    hide Price, Fee, Halted;
    if s.pending.Some? {
      var r := OpenHour(s, bar, cost).value;
      assert s.account.units > 0.0;
      assert forall k :: 0 <= k < |s.account.fills| ==> r.account.fills[k] == s.account.fills[k];
    }
  }

  lemma HaltedClose(s: State, bars: seq<Bar>, i: nat)
    requires i < |bars| && CloseHour(s, bars, i).Done? && s.pending == None
    requires Halted(CloseHour(s, bars, i).value.equities)
    ensures var t := CloseHour(s, bars, i).value;
      t.pending.Some? ==> t.pending.value.intent == ExitToCash
  {
    hide Mean, Halted, Equity, Exposure;
  }

  /** After the drawdown halt at any hour `h`, at most one more fill occurs in the whole run, and it is an exit. */
  lemma {:induction false} HaltAllowsOneExit(bars: seq<Bar>, start: int, end: int, cost: Cost, h: nat, j: nat, k: nat)
    requires ValidCost(cost) && ValidPartition(bars, start, end) && h < |bars| - 1
    requires RunValid(bars, cost).Done? && Replay(bars, cost, h + 1).Done?
    requires Halted(Replay(bars, cost, h + 1).value.equities)
    requires var fills := RunValid(bars, cost).value.fills;
      && j < |fills| && k < |fills|
      && fills[j].filledAt >= bars[h].start + 1 && fills[k].filledAt >= bars[h].start + 1
    ensures j == k && RunValid(bars, cost).value.fills[j].intent == ExitToCash
  {
    hide OpenHour, CloseHour, Halted, Price, Fee, Kept, Filled;
    var n := |bars| - 1;
    var time := bars[h].start + 1;
    ReplayKeeps(bars, start, end, cost, n);
    HaltHolds(bars, start, end, cost, h, n);
    assert ValidBar(bars, start, n);
    var s := Replay(bars, cost, n).value;
    OpenKeeps(s, bars[n], cost, start, n);
    UnitsNonnegative(s, start, n);
    HaltedOpen(s, bars[n], cost, time);
    var filled := OpenHour(s, bars[n], cost).value;
    var fills := RunValid(bars, cost).value.fills;
    if filled.account.units > 0.0 {
      assert fills[..|fills| - 1] == filled.account.fills;
      assert forall m :: 0 <= m < |filled.account.fills| ==> fills[m] == filled.account.fills[m];
    }
  }
}
