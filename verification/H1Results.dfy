/** What every result of the H1 replay says in plain arithmetic: each fill, mark
    and decision in terms of bars, rates and the fills before it, with nothing
    taken from the functions that compute them. */
module H1Results {
  import opened Exact
  import opened Outcomes
  import opened H1Policy
  import opened H1Replay
  import opened H1Safety

  // ----- fills

  /** What the account held before fill `k`. */
  function CashBefore(fills: seq<Fill>, k: nat): real
    requires k <= |fills|
  {
    if k == 0 then 10000.0 else fills[k - 1].cashAfter
  }

  function UnitsBefore(fills: seq<Fill>, k: nat): real
    requires k <= |fills|
  {
    if k == 0 then 0.0 else fills[k - 1].unitsAfter
  }

  ghost predicate EntryTold(fills: seq<Fill>, k: nat, open: real, cost: Cost)
    requires k < |fills|
  {
    var f := fills[k];
    && f.intent == EnterLong && f.price == open * (1.0 + cost.adverse) && f.fee == f.units * f.price * cost.fee
    && UnitsBefore(fills, k) == 0.0 && f.units > 0.0
    && MostUnits(f.units, f.price, CashBefore(fills, k) * 0.25)
    && f.cashAfter == CashBefore(fills, k) - f.units * f.price - f.fee && f.unitsAfter == f.units
  }

  ghost predicate ExitTold(fills: seq<Fill>, k: nat, open: real, cost: Cost)
    requires k < |fills|
  {
    var f := fills[k];
    && f.intent == ExitToCash && f.price == open * (1.0 - cost.adverse) && f.fee == f.units * f.price * cost.fee
    && f.units == UnitsBefore(fills, k) > 0.0
    && f.cashAfter == CashBefore(fills, k) + f.units * f.price - f.fee && f.unitsAfter == 0.0
  }

  /** Entries and exits take turns, each at the open of its hour. */
  ghost predicate FillTold(bars: seq<Bar>, start: int, cost: Cost, fills: seq<Fill>, k: nat)
    requires k < |fills|
  {
    var h := fills[k].filledAt - start + 168;
    && 168 <= h < |bars| && bars[h].start == fills[k].filledAt
    && if k % 2 == 0 then EntryTold(fills, k, bars[h].open, cost) else ExitTold(fills, k, bars[h].open, cost)
  }

  function FeesPaid(fills: seq<Fill>): real
  {
    if fills == [] then 0.0 else FeesPaid(fills[..|fills| - 1]) + fills[|fills| - 1].fee
  }

  ghost predicate AccountTold(bars: seq<Bar>, start: int, cost: Cost, a: Account)
  {
    && (forall k: nat :: k < |a.fills| ==> FillTold(bars, start, cost, a.fills, k))
    && a.cash == CashBefore(a.fills, |a.fills|) && a.units == UnitsBefore(a.fills, |a.fills|) && a.fees == FeesPaid(a.fills)
  }

  // ----- marks

  /** The last fill at or before a time is the `n`-th. */
  ghost predicate LastFill(fills: seq<Fill>, time: int, n: nat)
  {
    && n <= |fills| && (forall j :: 0 <= j < n ==> fills[j].filledAt <= time) && (forall j :: n <= j < |fills| ==> fills[j].filledAt > time)
  }

  ghost predicate MarkTold(bars: seq<Bar>, fills: seq<Fill>, mark: Mark, h: nat)
    requires h < |bars|
  {
    && mark.closedAt == bars[h].start + 1
    && mark.equity == mark.cash + mark.units * bars[h].close && mark.exposure * mark.equity == mark.units * bars[h].close
    && mark.equity > 0.0 && mark.units >= 0.0
    && exists n: nat :: LastFill(fills, bars[h].start, n) && mark.cash == CashBefore(fills, n) && mark.units == UnitsBefore(fills, n)
  }

  // ----- what the policy was shown

  /** The account at the close of hour `h`: untouched through the warmup. */
  function Shown(bars: seq<Bar>, marks: seq<Mark>, h: nat): real
    requires h < |bars| && h < 168 + |marks|
  {
    if h < 168 then 10000.0 + 0.0 * bars[h].close else marks[h - 168].cash + marks[h - 168].units * bars[h].close
  }

  /** Some close up to hour `h` stood a fifth below an earlier one. */
  ghost predicate Fallen(bars: seq<Bar>, marks: seq<Mark>, h: nat)
    requires h < |bars| && h < 168 + |marks|
  {
    exists i: nat, j: nat :: i <= j <= h && Shown(bars, marks, j) <= Shown(bars, marks, i) * 0.8
  }

  /** The closes of hours `lo` up to but not including `hi`. */
  function CloseTotal(bars: seq<Bar>, lo: nat, hi: nat): real
    requires lo <= hi <= |bars|
  {
    if lo == hi then 0.0 else CloseTotal(bars, lo, hi - 1) + bars[hi - 1].close
  }

  ghost predicate DecisionTold(bars: seq<Bar>, marks: seq<Mark>, d: Decision, k: nat)
    requires 168 + k < |bars| && k < |marks|
  {
    var h, held, close := 168 + k, marks[k].units > 0.0, bars[168 + k].close;
    && d.closedAt == bars[h].start + 1 && d.closedHours == h + 1
    && d.mean.Some? && d.mean.value * 168.0 == CloseTotal(bars, h - 167, h + 1)
    && (d.entriesHalted <==> Fallen(bars, marks, h))
    && (d.risk == DrawdownHalt <==> d.entriesHalted) && (d.risk == Clear <==> !d.entriesHalted)
    && (d.intent == ExitToCash <==> held && (d.entriesHalted || close <= d.mean.value))
    && (d.intent == EnterLong <==> !held && !d.entriesHalted && close > d.mean.value)
    && (d.intent == ExitToCash ==> d.target == Some(0.0)) && (d.intent == EnterLong ==> d.target == Some(0.25))
    && (d.intent == Hold ==> d.target == None)
  }

  // ----- one fill more

  lemma {:induction false} FillsBefore(fills: seq<Fill>, f: Fill, k: nat)
    requires k <= |fills|
    ensures CashBefore(fills + [f], k) == CashBefore(fills, k) && UnitsBefore(fills + [f], k) == UnitsBefore(fills, k)
  {
    if k > 0 {
      assert (fills + [f])[k - 1] == fills[k - 1];
    }
  }

  lemma FillStaysTold(bars: seq<Bar>, start: int, cost: Cost, fills: seq<Fill>, f: Fill, k: nat)
    requires k < |fills| && FillTold(bars, start, cost, fills, k)
    ensures FillTold(bars, start, cost, fills + [f], k)
  {
    hide MostUnits;
    assert (fills + [f])[k] == fills[k];
    FillsBefore(fills, f, k);
  }

  /** Rounding a quotient down to eight decimals gives the most units the amount buys. */
  lemma RoundedIsMost(amount: real, price: real)
    requires price > 0.0
    ensures MostUnits(FloorUnits(amount * UNIT_SCALE / price), price, amount)
  {
    var total := amount * UNIT_SCALE;
    var n := (total / price).Floor as real;
    var units := FloorUnits(total / price);
    assert units * 100000000.0 == n;
    FloorBounds(total, price);
    hide FloorUnits;
    Below(units, n, price, amount);
    Above(units, n, price, amount);
  }

  lemma Below(units: real, n: real, price: real, amount: real)
    requires units * 100000000.0 == n && n * price <= amount * 100000000.0
    ensures units * price <= amount
  {
    var top := units * price;
    ScaledUp(units, n, price);
    assert top * 100000000.0 <= amount * 100000000.0;
  }

  lemma Above(units: real, n: real, price: real, amount: real)
    requires units * 100000000.0 == n && amount * 100000000.0 < (n + 1.0) * price
    ensures amount < (units + 0.00000001) * price
  {
    var top := (units + 0.00000001) * price;
    ScaledUp(units + 0.00000001, n + 1.0, price);
    assert amount * 100000000.0 < top * 100000000.0;
  }

  lemma ScaledUp(units: real, n: real, price: real)
    requires units * 100000000.0 == n
    ensures (units * price) * 100000000.0 == n * price
  {
    calc {
      (units * price) * 100000000.0;
      (units * 100000000.0) * price;
    }
  }

  lemma EntryIsTold(a: Account, at: int, open: real, cost: Cost)
    requires a.cash == CashBefore(a.fills, |a.fills|) && a.units == UnitsBefore(a.fills, |a.fills|)
    requires open > 0.0 && ValidCost(cost) && FillEntry(a, at, at, open, false, cost).Done?
    ensures var b := FillEntry(a, at, at, open, false, cost).value;
      && |b.fills| == |a.fills| + 1 && b.fills == a.fills + [b.fills[|a.fills|]]
      && EntryTold(b.fills, |a.fills|, open, cost) && b.fills[|a.fills|].filledAt == at
      && b.cash == b.fills[|a.fills|].cashAfter && b.units == b.fills[|a.fills|].unitsAfter && b.fees == a.fees + b.fills[|a.fills|].fee
  {
    hide MostUnits, FloorUnits;
    MulPos(open, 1.0 + cost.adverse);
    var price := open * (1.0 + cost.adverse);
    RoundedIsMost(a.cash * 0.25, price);
    var b := FillEntry(a, at, at, open, false, cost).value;
    assert b.fills[|a.fills|].price == price && b.fills[|a.fills|].units == FloorUnits(a.cash * 0.25 * UNIT_SCALE / price);
    FillsBefore(a.fills, b.fills[|a.fills|], |a.fills|);
  }

  lemma ExitIsTold(a: Account, at: int, open: real, terminal: bool, cost: Cost)
    requires a.cash == CashBefore(a.fills, |a.fills|) && a.units == UnitsBefore(a.fills, |a.fills|)
    requires open > 0.0 && ValidCost(cost) && FillExit(a, at, at, open, terminal, cost).Done?
    ensures var b := FillExit(a, at, at, open, terminal, cost).value;
      && |b.fills| == |a.fills| + 1 && b.fills == a.fills + [b.fills[|a.fills|]]
      && ExitTold(b.fills, |a.fills|, open, cost) && b.fills[|a.fills|].filledAt == at
      && b.cash == b.fills[|a.fills|].cashAfter && b.units == b.fills[|a.fills|].unitsAfter && b.fees == a.fees + b.fills[|a.fills|].fee
  {
    var b := FillExit(a, at, at, open, terminal, cost).value;
    FillsBefore(a.fills, b.fills[|a.fills|], |a.fills|);
  }

  /** A fill at the open of hour `h` leaves the account told. */
  lemma AccountStep(bars: seq<Bar>, start: int, cost: Cost, a: Account, intent: Intent, h: nat, terminal: bool)
    requires 168 <= h < |bars| && bars[h].start == start - 168 + h && bars[h].open > 0.0 && ValidCost(cost)
    requires AccountTold(bars, start, cost, a) && GoodAccount(a)
    requires (intent == EnterLong ==> a.units == 0.0 && !terminal) && (intent == ExitToCash ==> a.units > 0.0)
    requires FillAt(a, intent, bars[h].start, bars[h].start, bars[h].open, terminal, cost).Done?
    ensures var b := FillAt(a, intent, bars[h].start, bars[h].start, bars[h].open, terminal, cost).value;
      AccountTold(bars, start, cost, b) && |b.fills| == |a.fills| + 1 && b.fills == a.fills + [b.fills[|a.fills|]]
      && b.fills[|a.fills|].filledAt == bars[h].start
  {
    hide FillEntry, FillExit, EntryTold, ExitTold, WholeUnits;
    var b := FillAt(a, intent, bars[h].start, bars[h].start, bars[h].open, terminal, cost).value;
    if intent == EnterLong {
      EntryIsTold(a, bars[h].start, bars[h].open, cost);
    } else {
      ExitIsTold(a, bars[h].start, bars[h].open, terminal, cost);
    }
    var f := b.fills[|a.fills|];
    assert b.fills[..|b.fills| - 1] == a.fills;
    forall k: nat | k < |a.fills|
      ensures FillTold(bars, start, cost, b.fills, k)
    {
      FillStaysTold(bars, start, cost, a.fills, f, k);
    }
  }

  // ----- one close more

  lemma MarkIgnoresFill(bars: seq<Bar>, fills: seq<Fill>, f: Fill, mark: Mark, h: nat)
    requires h < |bars| && MarkTold(bars, fills, mark, h) && f.filledAt > bars[h].start
    ensures MarkTold(bars, fills + [f], mark, h)
  {
    var n: nat :| LastFill(fills, bars[h].start, n) && mark.cash == CashBefore(fills, n) && mark.units == UnitsBefore(fills, n);
    FillsBefore(fills, f, n);
    assert LastFill(fills + [f], bars[h].start, n);
  }

  lemma MarkIsTold(bars: seq<Bar>, a: Account, h: nat)
    requires h < |bars| && bars[h].close > 0.0 && a.cash > 0.0 && a.units >= 0.0
    requires a.cash == CashBefore(a.fills, |a.fills|) && a.units == UnitsBefore(a.fills, |a.fills|)
    requires forall j :: 0 <= j < |a.fills| ==> a.fills[j].filledAt <= bars[h].start
    ensures Equity(a.cash, a.units, bars[h].close) > 0.0
    ensures MarkTold(bars, a.fills, Mark(bars[h].start + 1, a.cash, a.units, Equity(a.cash, a.units, bars[h].close),
                                         Exposure(a.cash, a.units, bars[h].close)), h)
  {
    EquityPositive(a.cash, a.units, bars[h].close);
    var equity := a.cash + a.units * bars[h].close;
    assert LastFill(a.fills, bars[h].start, |a.fills|);
    DivMul(a.units * bars[h].close, equity);
  }

  lemma ShownStays(bars: seq<Bar>, marks: seq<Mark>, mark: Mark, h: nat)
    requires h < |bars| && h < 168 + |marks|
    ensures Shown(bars, marks + [mark], h) == Shown(bars, marks, h)
  {}

  lemma FallenStays(bars: seq<Bar>, marks: seq<Mark>, mark: Mark, h: nat)
    requires h < |bars| && h < 168 + |marks|
    ensures Fallen(bars, marks + [mark], h) == Fallen(bars, marks, h)
  {
    hide Shown;
    forall i: nat | i <= h
      ensures Shown(bars, marks + [mark], i) == Shown(bars, marks, i)
    {
      ShownStays(bars, marks, mark, i);
    }
  }

  lemma DecisionStays(bars: seq<Bar>, marks: seq<Mark>, mark: Mark, d: Decision, k: nat)
    requires 168 + k < |bars| && k < |marks| && DecisionTold(bars, marks, d, k)
    ensures DecisionTold(bars, marks + [mark], d, k)
  {
    hide Fallen, CloseTotal;
    FallenStays(bars, marks, mark, 168 + k);
  }

  /** Summing a slice of closes bar by bar. */
  lemma {:induction false} SliceTotal(bars: seq<Bar>, n: nat, lo: nat, hi: nat)
    requires lo <= hi <= n <= |bars|
    ensures Sum(Closes(bars, n)[lo..hi]) == CloseTotal(bars, lo, hi)
  {
    var s := Closes(bars, n)[lo..hi];
    if lo < hi {
      assert s[..|s| - 1] == Closes(bars, n)[lo..hi - 1];
      SliceTotal(bars, n, lo, hi - 1);
    }
  }

  lemma MeanIsTold(bars: seq<Bar>, h: nat)
    requires 168 <= h < |bars|
    ensures var m := Mean(Closes(bars, h + 1)); m.Some? && m.value * 168.0 == CloseTotal(bars, h - 167, h + 1)
  {
    SliceTotal(bars, h + 1, h - 167, h + 1);
    hide Sum, CloseTotal;
    DivMul(Sum(Closes(bars, h + 1)[h - 167..]), 168.0);
    assert Closes(bars, h + 1)[h - 167..] == Closes(bars, h + 1)[h - 167..h + 1];
  }

  lemma HaltIsTold(bars: seq<Bar>, marks: seq<Mark>, equities: seq<real>, h: nat)
    requires h < |bars| && h < 168 + |marks| && |equities| == h + 1
    requires forall j: nat :: j <= h ==> equities[j] == Shown(bars, marks, j) && equities[j] > 0.0
    ensures Halted(equities) <==> Fallen(bars, marks, h)
  {
    hide Halted, Shown;
    HaltedMeansDrawdown(equities);
    if Halted(equities) {
      var i, j :| 0 <= i <= j < |equities| && equities[j] <= equities[i] * 0.80;
      assert Shown(bars, marks, j) <= Shown(bars, marks, i) * 0.8;
    }
    if Fallen(bars, marks, h) {
      var i: nat, j: nat :| i <= j <= h && Shown(bars, marks, j) <= Shown(bars, marks, i) * 0.8;
      assert equities[j] <= equities[i] * 0.80;
    }
  }

  lemma DecisionIsTold(bars: seq<Bar>, marks: seq<Mark>, equities: seq<real>, k: nat, exposure: real)
    requires 168 + k < |bars| && |marks| == k + 1 && |equities| == 169 + k && marks[k].units >= 0.0
    requires marks[k].units == 0.0 ==> exposure == 0.0
    requires forall j: nat :: j <= 168 + k ==> equities[j] == Shown(bars, marks, j) && equities[j] > 0.0
    ensures DecisionTold(bars, marks,
              Decide(bars[168 + k].start + 1, Closes(bars, 169 + k), equities, marks[k].units > 0.0, exposure), k)
  {
    hide Mean, Halted, Fallen, CloseTotal, Shown;
    MeanIsTold(bars, 168 + k);
    HaltIsTold(bars, marks, equities, 168 + k);
  }

  // ----- every hour of a replay

  ghost predicate MarksTold(s: State, bars: seq<Bar>, i: nat)
  {
    && |s.equities| == i <= |bars| && |s.marks| == |s.decisions| == (if i < 168 then 0 else i - 168)
    && (forall k: nat :: k < |s.marks| ==> MarkTold(bars, s.account.fills, s.marks[k], 168 + k))
    && (forall k: nat :: k < |s.marks| ==> DecisionTold(bars, s.marks, s.decisions[k], k))
    && forall h: nat :: h < i ==> s.equities[h] == Shown(bars, s.marks, h)
  }

  ghost predicate Told(s: State, bars: seq<Bar>, start: int, cost: Cost, i: nat)
  {
    AccountTold(bars, start, cost, s.account) && MarksTold(s, bars, i)
  }

  lemma PendingFacts(s: State, start: int, i: nat)
    requires Kept(s, start, i) && s.pending.Some?
    ensures i >= 168 && GoodAccount(s.account) && s.pending.value.closedAt == start - 168 + i
    ensures var intent := s.pending.value.intent;
      intent != Hold && (intent == EnterLong ==> s.account.units == 0.0) && (intent == ExitToCash ==> s.account.units > 0.0)
  {
    hide GoodTape, GoodFollow, WholeUnits;
  }

  lemma MarksIgnoreFill(s: State, t: State, bars: seq<Bar>, start: int, i: nat)
    requires MarksTold(s, bars, i) && i < |bars| && t == s.(account := t.account, pending := t.pending)
    requires forall h: nat :: h <= i ==> bars[h].start == start - 168 + h
    requires |t.account.fills| == |s.account.fills| + 1 && t.account.fills == s.account.fills + [t.account.fills[|s.account.fills|]]
    requires t.account.fills[|s.account.fills|].filledAt == bars[i].start
    ensures MarksTold(t, bars, i)
  {
    hide MarkTold, DecisionTold, Shown;
    forall k: nat | k < |s.marks|
      ensures MarkTold(bars, t.account.fills, s.marks[k], 168 + k)
    {
      MarkIgnoresFill(bars, s.account.fills, t.account.fills[|s.account.fills|], s.marks[k], 168 + k);
    }
  }

  lemma OpenIsTold(s: State, bars: seq<Bar>, start: int, end: int, cost: Cost, i: nat)
    requires ValidPartition(bars, start, end) && ValidCost(cost) && i < |bars| && Kept(s, start, i) && Told(s, bars, start, cost, i)
    requires OpenHour(s, bars[i], cost).Done?
    ensures Told(OpenHour(s, bars[i], cost).value, bars, start, cost, i)
  {
    hide FillAt, AccountTold, MarksTold, Kept;
    StartsAre(bars, start, end);
    if s.pending.Some? {
      PendingFacts(s, start, i);
      AccountStep(bars, start, cost, s.account, s.pending.value.intent, i, false);
      MarksIgnoreFill(s, OpenHour(s, bars[i], cost).value, bars, start, i);
    }
  }

  lemma StartsAre(bars: seq<Bar>, start: int, end: int)
    requires ValidPartition(bars, start, end)
    ensures forall h: nat :: h < |bars| ==> bars[h].start == start - 168 + h && bars[h].open > 0.0
    ensures forall h: nat :: h < |bars| - 1 ==> bars[h].close > 0.0
  {
    forall h: nat | h < |bars|
      ensures bars[h].start == start - 168 + h && bars[h].open > 0.0 && (h < |bars| - 1 ==> bars[h].close > 0.0)
    {
      assert ValidBar(bars, start, h);
    }
  }

  lemma FilledTimes(s: State, start: int, i: nat)
    requires Filled(s, start, i)
    ensures s.account.cash > 0.0 && s.account.units >= 0.0
    ensures forall j :: 0 <= j < |s.account.fills| ==> s.account.fills[j].filledAt <= start - 168 + i
    ensures forall k :: 0 <= k < |s.equities| ==> s.equities[k] > 0.0
  {
    hide GoodFollow, WholeUnits;
  }

  /** The close of a scored hour. */
  lemma CloseIsTold(s: State, bars: seq<Bar>, start: int, end: int, cost: Cost, i: nat)
    requires ValidPartition(bars, start, end) && 168 <= i < |bars| - 1 && Filled(s, start, i) && Told(s, bars, start, cost, i)
    requires CloseHour(s, bars, i).Done?
    ensures Told(CloseHour(s, bars, i).value, bars, start, cost, i + 1)
  {
    hide Filled, Equity, Exposure, Decide, MarkTold, DecisionTold, FillTold, Shown, FeesPaid;
    StartsAre(bars, start, end);
    FilledTimes(s, start, i);
    MarkIsTold(bars, s.account, i);
    var t := CloseHour(s, bars, i).value;
    var k := i - 168;
    var mark := t.marks[k];
    assert t.marks == s.marks + [mark];
    forall j: nat | j < k
      ensures DecisionTold(bars, t.marks, s.decisions[j], j)
    {
      DecisionStays(bars, s.marks, mark, s.decisions[j], j);
    }
    forall h: nat | h <= i
      ensures t.equities[h] == Shown(bars, t.marks, h) && t.equities[h] > 0.0
    {
      if h < i {
        ShownStays(bars, s.marks, mark, h);
      } else {
        ShownNow(bars, t.marks, i, s.account);
      }
    }
    FlatExposure(s.account.cash, s.account.units, bars[i].close);
    DecisionIsTold(bars, t.marks, t.equities, k, mark.exposure);
  }

  lemma ShownNow(bars: seq<Bar>, marks: seq<Mark>, i: nat, a: Account)
    requires 168 <= i < |bars| && |marks| == i - 167 && marks[i - 168].cash == a.cash && marks[i - 168].units == a.units
    ensures Shown(bars, marks, i) == Equity(a.cash, a.units, bars[i].close)
  {}

  lemma FlatExposure(cash: real, units: real, close: real)
    ensures units == 0.0 ==> Exposure(cash, units, close) == 0.0
  {}

  /** The close of a warmup hour: the account is untouched. */
  lemma WarmupIsTold(s: State, bars: seq<Bar>, start: int, end: int, cost: Cost, i: nat)
    requires ValidPartition(bars, start, end) && i < 168 && s.account == INITIAL.account && MarksTold(s, bars, i)
    requires CloseHour(s, bars, i).Done?
    ensures Told(CloseHour(s, bars, i).value, bars, start, cost, i + 1)
    ensures CloseHour(s, bars, i).value.account == INITIAL.account
  {
    hide Decide, MarkTold, DecisionTold;
    var t := CloseHour(s, bars, i).value;
    forall h: nat | h <= i
      ensures t.equities[h] == Shown(bars, t.marks, h)
    {
      if h < i {
        assert t.equities[h] == s.equities[h];
      }
    }
  }

  lemma WarmupNothing(s: State, start: int, i: nat)
    requires Kept(s, start, i) && i < 168
    ensures s.pending == None
  {
    hide GoodTape, GoodFollow, WholeUnits;
  }

  lemma {:induction false} ReplayIsTold(bars: seq<Bar>, start: int, end: int, cost: Cost, i: nat)
    requires ValidCost(cost) && ValidPartition(bars, start, end) && i < |bars| && Replay(bars, cost, i).Done?
    ensures Told(Replay(bars, cost, i).value, bars, start, cost, i)
    ensures i <= 168 ==> Replay(bars, cost, i).value.account == INITIAL.account
  {
    hide OpenHour, CloseHour, Kept, Filled, Told, ValidPartition;
    if i == 0 {
      InitialTold(bars, start, cost);
    } else {
      ReplayIsTold(bars, start, end, cost, i - 1);
      ReplayKeeps(bars, start, end, cost, i - 1);
      StartsAre(bars, start, end);
      var s := Replay(bars, cost, i - 1).value;
      var n := |bars|;
      OpenKeeps(s, bars[i - 1], cost, start, i - 1);
      var filled := OpenHour(s, bars[i - 1], cost).value;
      if i - 1 < 168 {
        WarmupNothing(s, start, i - 1);
        OpenIdle(s, bars[i - 1], cost);
        ToldMarks(s, bars, start, cost, i - 1);
        WarmupIsTold(s, bars, start, end, cost, i - 1);
      } else {
        OpenIsTold(s, bars, start, end, cost, i - 1);
        CloseIsTold(filled, bars, start, end, cost, i - 1);
      }
    }
  }

  lemma InitialTold(bars: seq<Bar>, start: int, cost: Cost)
    ensures Told(INITIAL, bars, start, cost, 0)
  {}

  lemma OpenIdle(s: State, bar: Bar, cost: Cost)
    requires s.pending == None
    ensures OpenHour(s, bar, cost) == Done(s)
  {}

  lemma ToldMarks(s: State, bars: seq<Bar>, start: int, cost: Cost, i: nat)
    requires Told(s, bars, start, cost, i)
    ensures MarksTold(s, bars, i)
  {}

  // ----- fills answer decisions

  /** A decision made at the close before called for this fill. */
  ghost predicate Answers(f: Fill, decisions: seq<Decision>)
  {
    exists j: nat :: j < |decisions| && decisions[j].closedAt == f.filledAt == f.signalClosed && decisions[j].intent == f.intent
  }

  ghost predicate AllAnswer(fills: seq<Fill>, decisions: seq<Decision>)
  {
    forall k: nat :: k < |fills| && !fills[k].terminal ==> Answers(fills[k], decisions)
  }

  lemma AnswersStay(fills: seq<Fill>, decisions: seq<Decision>, d: Decision)
    requires AllAnswer(fills, decisions)
    ensures AllAnswer(fills, decisions + [d])
  {
    forall k: nat | k < |fills| && !fills[k].terminal
      ensures Answers(fills[k], decisions + [d])
    {
      var j: nat :| j < |decisions| && decisions[j].closedAt == fills[k].filledAt == fills[k].signalClosed && decisions[j].intent == fills[k].intent;
      assert (decisions + [d])[j] == decisions[j];
    }
  }

  lemma OpenAnswers(s: State, bar: Bar, cost: Cost, start: int, i: nat)
    requires Kept(s, start, i) && AllAnswer(s.account.fills, s.decisions) && OpenHour(s, bar, cost).Done?
    ensures AllAnswer(OpenHour(s, bar, cost).value.account.fills, s.decisions)
  {
    hide Price, Fee, EntryQuantity, WholeUnits, Worth, GoodTape, GoodFollow, GoodRecord;
    if s.pending.Some? {
      var fills := OpenHour(s, bar, cost).value.account.fills;
      assert fills == s.account.fills + [fills[|s.account.fills|]];
      assert s.decisions[|s.decisions| - 1] == s.pending.value;
    }
  }

  lemma CloseAnswers(s: State, bars: seq<Bar>, i: nat)
    requires i < |bars| && AllAnswer(s.account.fills, s.decisions) && CloseHour(s, bars, i).Done?
    ensures var t := CloseHour(s, bars, i).value; AllAnswer(t.account.fills, t.decisions)
  {
    hide Decide, Equity, Exposure, AllAnswer;
    var t := CloseHour(s, bars, i).value;
    if i >= 168 {
      AnswersStay(s.account.fills, s.decisions, t.decisions[|s.decisions|]);
    }
  }

  lemma {:induction false} ReplayAnswers(bars: seq<Bar>, start: int, end: int, cost: Cost, i: nat)
    requires ValidCost(cost) && ValidPartition(bars, start, end) && i < |bars| && Replay(bars, cost, i).Done?
    ensures var s := Replay(bars, cost, i).value; AllAnswer(s.account.fills, s.decisions)
  {
    hide OpenHour, CloseHour, Kept, Filled, AllAnswer, ValidPartition;
    if i == 0 {
      NoneToAnswer();
    } else {
      ReplayAnswers(bars, start, end, cost, i - 1);
      ReplayKeeps(bars, start, end, cost, i - 1);
      StartsAre(bars, start, end);
      var s := Replay(bars, cost, i - 1).value;
      OpenKeeps(s, bars[i - 1], cost, start, i - 1);
      OpenAnswers(s, bars[i - 1], cost, start, i - 1);
      CloseAnswers(OpenHour(s, bars[i - 1], cost).value, bars, i - 1);
    }
  }

  lemma NoneToAnswer()
    ensures AllAnswer([], [])
  {}

  /** The terminal exit is taken exactly when something is still held after the last open. */
  ghost predicate TerminalTold(fills: seq<Fill>, end: int)
  {
    forall k: nat :: k < |fills| && fills[k].terminal ==> k == |fills| - 1 && fills[k].filledAt == end && fills[k].intent == ExitToCash
  }

  lemma SettleAnswers(s: State, bars: seq<Bar>, start: int, end: int, cost: Cost)
    requires ValidPartition(bars, start, end) && ValidCost(cost)
    requires Kept(s, start, |bars| - 1) && AllAnswer(s.account.fills, s.decisions) && Settle(s, bars[|bars| - 1], cost).Done?
    ensures var t := Settle(s, bars[|bars| - 1], cost).value; AllAnswer(t.account.fills, s.decisions) && TerminalTold(t.account.fills, end)
  {
    hide OpenHour, AllAnswer, Kept, Price, Fee, Worth, GoodAccount, GoodRecord, GoodFollow;
    var n := |bars| - 1;
    StartsAre(bars, start, end);
    OpenKeeps(s, bars[n], cost, start, n);
    OpenAnswers(s, bars[n], cost, start, n);
    var filled := OpenHour(s, bars[n], cost).value;
    if filled.account.units > 0.0 {
      TerminalAnswers(filled.account.fills, Settle(s, bars[n], cost).value.account.fills, s.decisions);
    }
  }

  lemma TerminalAnswers(fills: seq<Fill>, more: seq<Fill>, decisions: seq<Decision>)
    requires AllAnswer(fills, decisions) && |more| == |fills| + 1 && more == fills + [more[|fills|]] && more[|fills|].terminal
    ensures AllAnswer(more, decisions)
  {
    forall k: nat | k < |more| && !more[k].terminal
      ensures Answers(more[k], decisions)
    {
      assert more[k] == fills[k];
    }
  }

  // ----- whole results

  /** Everything a result says, in plain arithmetic. */
  ghost predicate ResultTold(bars: seq<Bar>, start: int, end: int, cost: Cost, r: ReplayResult)
  {
    && start < end && |bars| == 168 + (end - start) + 1 && |r.marks| == |r.decisions| == end - start
    && (forall k: nat :: k < |r.fills| ==> FillTold(bars, start, cost, r.fills, k))
    && r.cash == CashBefore(r.fills, |r.fills|) && r.units == 0.0 && r.totalFees == FeesPaid(r.fills)
    && (forall k: nat :: k < end - start ==> MarkTold(bars, r.fills, r.marks[k], 168 + k))
    && (forall k: nat :: k < end - start ==> DecisionTold(bars, r.marks, r.decisions[k], k))
    && AllAnswer(r.fills, r.decisions) && TerminalTold(r.fills, end)
  }

  lemma SettleIsTold(s: State, bars: seq<Bar>, start: int, end: int, cost: Cost)
    requires ValidPartition(bars, start, end) && ValidCost(cost)
    requires Kept(s, start, |bars| - 1) && Told(s, bars, start, cost, |bars| - 1) && Settle(s, bars[|bars| - 1], cost).Done?
    ensures Told(Settle(s, bars[|bars| - 1], cost).value, bars, start, cost, |bars| - 1)
  {
    hide OpenHour, FillAt, AccountTold, MarksTold, Kept;
    var n := |bars| - 1;
    StartsAre(bars, start, end);
    OpenKeeps(s, bars[n], cost, start, n);
    OpenIsTold(s, bars, start, end, cost, n);
    var filled := OpenHour(s, bars[n], cost).value;
    if filled.account.units > 0.0 {
      AccountStep(bars, start, cost, filled.account, ExitToCash, n, true);
      MarksIgnoreFill(filled, Settle(s, bars[n], cost).value, bars, start, n);
    }
  }

  /** Every result of a replay says exactly this. */
  lemma {:induction false} ResultIsTold(bars: seq<Bar>, start: int, end: int, cost: Cost)
    requires ValidCost(cost) && ValidPartition(bars, start, end) && RunValid(bars, cost).Done?
    ensures ResultTold(bars, start, end, cost, RunValid(bars, cost).value)
  {
    hide Replay, Settle, Kept, FillTold, MarkTold, DecisionTold, FeesPaid, AllAnswer, TerminalTold;
    var n := |bars| - 1;
    ReplayKeeps(bars, start, end, cost, n);
    ReplayIsTold(bars, start, end, cost, n);
    SettleIsTold(Replay(bars, cost, n).value, bars, start, end, cost);
    ReplayAnswers(bars, start, end, cost, n);
    SettleAnswers(Replay(bars, cost, n).value, bars, start, end, cost);
    SettleShape(Replay(bars, cost, n).value, bars[n], cost);
  }

  lemma SettleShape(s: State, bar: Bar, cost: Cost)
    requires Settle(s, bar, cost).Done?
    ensures Settle(s, bar, cost).value.decisions == s.decisions && Settle(s, bar, cost).value.marks == s.marks
  {
    hide FillAt;
  }
}
