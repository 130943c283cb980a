/** The shared next-open long/cash replay of a normalized package, with its
    emitted trace rows. */
module PackageReplay {
  import opened Exact
  import opened Outcomes
  import opened Expression

  datatype Strategy = Strategy(entry: Node, exit: Node, fraction: real, warmup: nat, schema: int)

  /** Versions 3 and 4 need one preceding bar less than their warmup. */
  function PrecedingWarmup(s: Strategy): int { if s.schema == 3 || s.schema == 4 then s.warmup - 1 else s.warmup }

  /** What `parse_package` guarantees of the rule it returns. */
  predicate Parsed(s: Strategy)
  {
    && 0.0 < s.fraction <= 1.0
    && 1 <= s.schema <= 4
    && var entry := Check(s.entry, Boolean, 0, 0, s.schema);
    && entry.Some?
    && var exit := Check(s.exit, Boolean, 0, entry.value.count, s.schema);
    && exit.Some?
    && s.warmup == MaxNat(entry.value.warmup, exit.value.warmup)
  }

  datatype Cost = Cost(initialCash: real, fee: real, adverse: real, unit: real)
  datatype Benchmark = Strategic | CashOnly | Passive

  /** The cost screen; the eight-decimal domain is read as a whole number of units. */
  predicate ValidCost(c: Cost)
  {
    && (forall v :: v in [c.initialCash, c.fee, c.adverse, c.unit] ==> -1000000000.0 <= v <= 1000000000.0 && WholeUnits(v))
    && c.initialCash > 0.0 && c.unit > 0.0 && 0.0 <= c.fee < 1.0 && 0.0 <= c.adverse < 1.0
  }

  predicate ValidOhlc(b: Bar)
  {
    && b.high.Some? && b.low.Some?
    && (forall v :: v in [b.open, b.high.value, b.low.value, b.close] ==> 0.0 < v <= 1000000000.0 && WholeUnits(v))
    && b.high.value >= Max(b.open, b.close) && b.low.value <= Min(b.open, b.close) && b.high.value >= b.low.value
  }

  predicate ValidHour(bars: seq<Bar>, i: nat)
    requires i < |bars|
  {
    (i > 0 ==> bars[i].start == bars[i - 1].start + 1) && bars[i].open > 0.0 && bars[i].close > 0.0
  }

  datatype Fault = InvalidBoundary | InvalidCost | IncompleteHistory | InvalidBars | InvalidOhlc
                 | BelowUnit | RuleUndefined | NegativeAccount | Overflow

  datatype Side = Buy | Sell
  datatype Order = Order(side: Side, target: real)
  datatype Fill = Fill(index: nat, side: Side, quantity: real, price: real, fee: real)
  datatype Row = Row(index: nat, closesAt: int, rsi: Option<real>, upper: Option<real>, lower: Option<real>,
                     entry: Option<bool>, exit: Option<bool>, action: Option<Side>,
                     fill: Option<Fill>, cash: real, units: real, equity: real)

  datatype Account = Account(cash: real, units: real)

  /** Loop state between bars. */
  datatype State = State(account: Account, pending: Option<Order>, fills: nat, decisions: nat, rows: seq<Row>)

  datatype Setting = Setting(strategy: Strategy, cost: Cost, scoreStart: nat, benchmark: Benchmark)

  const LARGEST: real := 79228162514264337593543950335.0

  predicate Admissible(g: Setting, bars: seq<Bar>)
  {
    && g.scoreStart < |bars|
    && (g.scoreStart > 0 ==> g.scoreStart >= PrecedingWarmup(g.strategy))
    && ValidCost(g.cost)
    && |bars| > g.strategy.warmup
    && (forall i: nat :: i < |bars| ==> ValidHour(bars, i))
    && (g.strategy.schema == 3 ==> forall i :: 0 <= i < |bars| ==> ValidOhlc(bars[i]))
  }

  // ----- the arithmetic of one fill

  /** What a purchase costs, and what a sale brings. */
  function Paid(quantity: real, price: real, c: Cost): real { Worth(quantity, price) * (1.0 + c.fee) }

  function Received(quantity: real, price: real, c: Cost): real { Worth(quantity, price) * (1.0 - c.fee) }

  /** The most whole units within a number of coins. */
  function WholeMultiple(coins: real, unit: real): real
    requires unit != 0.0
  {
    (coins / unit).Floor as real * unit
  }

  /** Round the affordable quantity down to the quantity unit. */
  function Bought(amount: real, price: real, c: Cost): real
    requires Gross(price, c.fee) != 0.0 && c.unit != 0.0
  {
    WholeMultiple(amount / Gross(price, c.fee), c.unit)
  }

  function FillOrder(a: Account, o: Order, open: real, index: nat, c: Cost): Outcome<(Account, Fill), Fault>
    requires ValidCost(c) && open > 0.0
  {
    match o.side
    case Sell =>
      var price := SellPrice(open, c.adverse);
      Done((Account(a.cash + Received(a.units, price, c), 0.0),
            Fill(index, Sell, a.units, price, FeeOn(a.units, price, c.fee))))
    case Buy =>
      var price := BuyPrice(open, c.adverse);
      PricesPositive(open, c.adverse, c.fee);
      var quantity := Bought(Min(o.target, a.cash), price, c);
      if quantity <= 0.0 then Thrown(BelowUnit)
      else Done((Account(a.cash - Paid(quantity, price, c), a.units + quantity),
                 Fill(index, Buy, quantity, price, FeeOn(quantity, price, c.fee))))
  }

  function Equity(a: Account, close: real): real { a.cash + Worth(a.units, close) }

  // ----- one bar

  function Target(cash: real, fraction: real): real { cash * fraction }

  function AtOpen(s: State, g: Setting, index: nat): Option<Order>
  {
    if g.benchmark == Passive && index == g.scoreStart then Some(Order(Buy, Target(s.account.cash, g.strategy.fraction)))
    else s.pending
  }

  function OpenBar(s: State, g: Setting, bars: seq<Bar>, index: nat): Outcome<(State, Option<Fill>), Fault>
    requires Admissible(g, bars) && index < |bars|
  {
    var order := AtOpen(s, g, index);
    assert ValidHour(bars, index);
    if order.None? then Done((s, None))
    else
      var (a, fill) :- FillOrder(s.account, order.value, bars[index].open, index, g.cost);
      Done((s.(account := a, pending := None, fills := s.fills + 1), Some(fill)))
  }

  /** Rules are evaluated on scored bars past the warmup, never on the last bar. */
  predicate Evaluated(g: Setting, bars: seq<Bar>, index: nat)
  {
    g.benchmark == Strategic && index >= g.scoreStart && index + 1 >= g.strategy.warmup && index != |bars| - 1
  }

  function Decide(a: Account, entry: bool, exit: bool, fraction: real): Option<Order>
  {
    if a.units != 0.0 && exit then Some(Order(Sell, 0.0))
    else if a.units == 0.0 && entry then Some(Order(Buy, Target(a.cash, fraction)))
    else None
  }

  function At<T>(s: seq<T>, i: nat): Option<T> { if i < |s| then Some(s[i]) else None }

  function Flatten(o: Option<Option<real>>): Option<real> { if o.None? then None else o.value }

  function CloseBar(s: State, fill: Option<Fill>, g: Setting, bars: seq<Bar>, series: Series, index: nat): Outcome<State, Fault>
    requires index < |bars|
  {
    var entry := if Evaluated(g, bars, index) then Truth(g.strategy.entry, series, index) else None;
    var exit := if Evaluated(g, bars, index) then Truth(g.strategy.exit, series, index) else None;
    if Evaluated(g, bars, index) && (entry.None? || exit.None?) then Thrown(RuleUndefined) else
    var order := if Evaluated(g, bars, index) then Decide(s.account, entry.value, exit.value, g.strategy.fraction) else None;
    if s.account.cash < 0.0 || s.account.units < 0.0 then Thrown(NegativeAccount) else
    var equity := Equity(s.account, bars[index].close);
    if equity > LARGEST || equity < -LARGEST then Thrown(Overflow) else
    var row := Row(index, bars[index].start + 1, At(series.rsi, index), Flatten(At(series.upper, index)),
                   Flatten(At(series.lower, index)), entry, exit,
                   if order.Some? then Some(order.value.side) else None, fill, s.account.cash, s.account.units, equity);
    Done(State(s.account, if order.Some? then order else s.pending, s.fills,
               s.decisions + (if order.Some? then 1 else 0),
               if index >= g.scoreStart then s.rows + [row] else s.rows))
  }

  function InitialState(c: Cost): State { State(Account(c.initialCash, 0.0), None, 0, 0, []) }

  /** The loop state after `n` bars. */
  function Replay(g: Setting, bars: seq<Bar>, n: nat): Outcome<State, Fault>
    requires Admissible(g, bars) && n <= |bars|
  {
    if n == 0 then Done(InitialState(g.cost)) else
    var s :- Replay(g, bars, n - 1);
    var (filled, fill) :- OpenBar(s, g, bars, n - 1);
    CloseBar(filled, fill, g, bars, SeriesOf(bars, g.strategy.schema), n - 1)
  }

  datatype Report = Report(decisions: nat, fills: nat, terminalEquity: real, netReturn: real, rows: seq<Row>)

  function Summary(s: State, g: Setting, bars: seq<Bar>): Report
    requires bars != [] && g.cost.initialCash != 0.0
  {
    var equity := Equity(s.account, bars[|bars| - 1].close);
    Report(s.decisions, s.fills, equity, (equity - g.cost.initialCash) / g.cost.initialCash, s.rows)
  }

  function ReplayOf(g: Setting, bars: seq<Bar>): Outcome<Report, Fault>
    requires Admissible(g, bars)
  {
    var s :- Replay(g, bars, |bars|);
    Done(Summary(s, g, bars))
  }

  lemma {:induction false} ThrownStays(g: Setting, bars: seq<Bar>, i: nat, j: nat)
    requires Admissible(g, bars) && i <= j <= |bars| && Replay(g, bars, i).Thrown?
    ensures Replay(g, bars, j) == Replay(g, bars, i)
  {
    if i < j {
      ThrownStays(g, bars, i, j - 1);
    }
  }

  // ----- the program's loop

  method CheckHours(bars: seq<Bar>) returns (ok: bool)
    ensures ok <==> forall i: nat :: i < |bars| ==> ValidHour(bars, i)
  {
    for i := 0 to |bars|
      invariant forall k: nat :: k < i ==> ValidHour(bars, k)
    {
      if (i > 0 && bars[i].start != bars[i - 1].start + 1) || bars[i].open <= 0.0 || bars[i].close <= 0.0 {
        assert !ValidHour(bars, i);
        return false;
      }
    }
    return true;
  }

  method CheckCost(c: Cost) returns (ok: bool)
    ensures ok <==> ValidCost(c)
  {
    var values := [c.initialCash, c.fee, c.adverse, c.unit];
    for k := 0 to 4
      invariant forall j :: 0 <= j < k ==> -1000000000.0 <= values[j] <= 1000000000.0 && WholeUnits(values[j])
    {
      if values[k] > 1000000000.0 || values[k] < -1000000000.0 || (values[k] * 100000000.0).Floor as real != values[k] * 100000000.0 {
        assert values[k] in values;
        return false;
      }
    }
    assert forall v :: v in values <==> exists j :: 0 <= j < 4 && values[j] == v;
    return 0.0 < c.initialCash && 0.0 < c.unit && !(c.fee < 0.0 || c.fee >= 1.0) && !(c.adverse < 0.0 || c.adverse >= 1.0);
  }

  method CheckOhlc(b: Bar) returns (ok: bool)
    ensures ok <==> ValidOhlc(b)
  {
    if b.high.None? || b.low.None? {
      return false;
    }
    var (high, low) := (b.high.value, b.low.value);
    var values := [b.open, high, low, b.close];
    for k := 0 to 4
      invariant forall j :: 0 <= j < k ==> 0.0 < values[j] <= 1000000000.0 && WholeUnits(values[j])
    {
      if values[k] <= 0.0 || values[k] > 1000000000.0 || (values[k] * 100000000.0).Floor as real != values[k] * 100000000.0 {
        assert values[k] in values;
        return false;
      }
    }
    assert forall v :: v in values <==> exists j :: 0 <= j < 4 && values[j] == v;
    return !(high < b.open || high < b.close || low > b.open || low > b.close || high < low);
  }

  method FillAtOpen(a: Account, o: Order, open: real, index: nat, c: Cost) returns (r: Outcome<(Account, Fill), Fault>)
    requires ValidCost(c) && open > 0.0
    ensures r == FillOrder(a, o, open, index, c)
  {
    hide BuyPrice, SellPrice, Paid, Received, FeeOn, Bought, Gross;
    var cash, units := a.cash, a.units;
    var price: real, quantity: real;
    if o.side == Sell {
      price := SellPrice(open, c.adverse);
      quantity := units;
      cash := cash + Received(units, price, c);
      units := 0.0;
    } else {
      price := BuyPrice(open, c.adverse);
      PricesPositive(open, c.adverse, c.fee);
      var amount := Min(o.target, cash);
      quantity := Bought(amount, price, c);
      if quantity <= 0.0 {
        return Thrown(BelowUnit);
      }
      cash := cash - Paid(quantity, price, c);
      units := units + quantity;
    }
    return Done((Account(cash, units), Fill(index, o.side, quantity, price, FeeOn(quantity, price, c.fee))));
  }

  method CloseAndEmit(s: State, fill: Option<Fill>, g: Setting, bars: seq<Bar>, series: Series, index: nat) returns (r: Outcome<State, Fault>)
    requires index < |bars|
    ensures r == CloseBar(s, fill, g, bars, series, index)
  {
    hide Equity, Truth, Target;
    var entry: Option<bool>, exit: Option<bool>, action: Option<Side> := None, None, None;
    var pending, decisions, rows := s.pending, s.decisions, s.rows;
    if Evaluated(g, bars, index) {
      entry := Truth(g.strategy.entry, series, index);
      exit := Truth(g.strategy.exit, series, index);
      if entry.None? || exit.None? {
        return Thrown(RuleUndefined);
      }
      var order: Option<Order> := None;
      if s.account.units != 0.0 && exit.value {
        order := Some(Order(Sell, 0.0));
      } else if s.account.units == 0.0 && entry.value {
        order := Some(Order(Buy, Target(s.account.cash, g.strategy.fraction)));
      }
      if order.Some? {
        pending := order;
        action := Some(order.value.side);
        decisions := decisions + 1;
      }
    }
    if s.account.cash < 0.0 || s.account.units < 0.0 {
      return Thrown(NegativeAccount);
    }
    var equity := Equity(s.account, bars[index].close);
    if equity > LARGEST || equity < -LARGEST {
      return Thrown(Overflow);
    }
    if index >= g.scoreStart {
      rows := rows + [Row(index, bars[index].start + 1, At(series.rsi, index), Flatten(At(series.upper, index)),
                          Flatten(At(series.lower, index)), entry, exit, action, fill,
                          s.account.cash, s.account.units, equity)];
    }
    return Done(State(s.account, pending, s.fills, decisions, rows));
  }

  method ReplayPackage(g: Setting, bars: seq<Bar>) returns (r: Outcome<Report, Fault>)
    ensures r.Done? ==> Admissible(g, bars)
    ensures Admissible(g, bars) ==> r == ReplayOf(g, bars)
  {
    hide FillOrder, CloseBar, SeriesOf, ValidCost, ValidOhlc, Equity, Target;
    var preceding := if g.strategy.schema in {3, 4} then g.strategy.warmup - 1 else g.strategy.warmup;
    if g.scoreStart >= |bars| || (g.scoreStart > 0 && g.scoreStart < preceding) {
      return Thrown(InvalidBoundary);
    }
    var costs := CheckCost(g.cost);
    if !costs {
      return Thrown(InvalidCost);
    }
    if |bars| <= g.strategy.warmup {
      return Thrown(IncompleteHistory);
    }
    var hours := CheckHours(bars);
    if !hours {
      return Thrown(InvalidBars);
    }
    if g.strategy.schema == 3 {
      for i := 0 to |bars|
        invariant forall k :: 0 <= k < i ==> ValidOhlc(bars[k])
      {
        var shaped := CheckOhlc(bars[i]);
        if !shaped {
          return Thrown(InvalidOhlc);
        }
      }
    }
    CostPositive(g.cost);
    var series := BuildSeries(bars, g.strategy.schema);
    var s := InitialState(g.cost);
    for index := 0 to |bars|
      invariant Replay(g, bars, index) == Done(s)
    {
      var fill: Option<Fill> := None;
      ghost var before := s;
      if g.benchmark == Passive && index == g.scoreStart {
        s := s.(pending := Some(Order(Buy, Target(s.account.cash, g.strategy.fraction))));
      }
      if s.pending.Some? {
        assert ValidHour(bars, index);
        var filled := FillAtOpen(s.account, s.pending.value, bars[index].open, index, g.cost);
        if filled.Thrown? {
          ThrownStays(g, bars, index + 1, |bars|);
          return Thrown(filled.fault);
        }
        var (account, done) := filled.value;
        fill := Some(done);
        s := s.(account := account, pending := None, fills := s.fills + 1);
      }
      assert OpenBar(before, g, bars, index) == Done((s, fill));
      var closed := CloseAndEmit(s, fill, g, bars, series, index);
      if closed.Thrown? {
        ThrownStays(g, bars, index + 1, |bars|);
        return Thrown(closed.fault);
      }
      s := closed.value;
    }
    return Done(Summary(s, g, bars));
  }

  lemma CostPositive(c: Cost)
    requires ValidCost(c)
    ensures c.initialCash > 0.0 && c.unit > 0.0 && 0.0 <= c.fee < 1.0 && 0.0 <= c.adverse < 1.0
  {}

  // ----- closed-bar predicates before any execution

  datatype Signal = Signal(index: nat, entry: Option<bool>, exit: Option<bool>)

  function SignalTrace(s: Strategy, bars: seq<Bar>): seq<Signal>
    requires 1 <= s.warmup < |bars|
  {
    var series := SeriesOf(bars, s.schema);
    seq(|bars| - s.warmup, k requires 0 <= k < |bars| - s.warmup =>
      Signal(s.warmup - 1 + k, Truth(s.entry, series, s.warmup - 1 + k), Truth(s.exit, series, s.warmup - 1 + k)))
  }
}
