/** What every row of a package replay says in plain arithmetic: which bar it
    closes, which rule values it shows, what was filled at its open, for how
    many units, and what the account then holds. */
module PackageResults {
  import opened Exact
  import opened Outcomes
  import opened Expression
  import ExpressionMeaning
  import opened PackageReplay
  import opened PackageMetrics
  import opened PackageTheorems

  // ----- one fill

  /** The account before row `k`: the initial cash, or what the row before shows. */
  function CashBefore(rows: seq<Row>, k: nat, initial: real): real
    requires k <= |rows|
  {
    if k == 0 then initial else rows[k - 1].cash
  }

  function UnitsBefore(rows: seq<Row>, k: nat): real
    requires k <= |rows|
  {
    if k == 0 then 0.0 else rows[k - 1].units
  }

  ghost predicate IsMultiple(quantity: real, unit: real, m: int) { quantity == m as real * unit }

  /** The largest multiple of a unit that an amount pays for, fee included. */
  ghost predicate MostMultiples(quantity: real, unit: real, price: real, fee: real, amount: real)
  {
    && (exists m: int :: IsMultiple(quantity, unit, m))
    && quantity * (price * (1.0 + fee)) <= amount < (quantity + unit) * (price * (1.0 + fee))
  }

  ghost predicate BuyTold(f: Fill, a: Account, b: Account, open: real, fraction: real, c: Cost)
  {
    && f.side == Buy && f.quantity > 0.0 && f.price == open * (1.0 + c.adverse) && f.fee == f.quantity * f.price * c.fee
    && MostMultiples(f.quantity, c.unit, f.price, c.fee, a.cash * fraction)
    && b.cash == a.cash - f.quantity * f.price - f.fee && b.units == a.units + f.quantity
  }

  ghost predicate SellTold(f: Fill, a: Account, b: Account, open: real, c: Cost)
  {
    && f.side == Sell && f.quantity == a.units && f.price == open * (1.0 - c.adverse) && f.fee == f.quantity * f.price * c.fee
    && b.cash == a.cash + f.quantity * f.price - f.fee && b.units == 0.0
  }

  lemma MultiplesOf(coins: real, unit: real) returns (m: int)
    requires unit > 0.0
    ensures var q := WholeMultiple(coins, unit); IsMultiple(q, unit, m) && q <= coins < q + unit
  {
    m := (coins / unit).Floor;
    FloorBounds(coins, unit);
    var q := m as real * unit;
    assert (m as real + 1.0) * unit == q + unit;
  }

  lemma BoughtIsMost(amount: real, price: real, c: Cost)
    requires ValidCost(c) && price > 0.0
    ensures c.unit > 0.0 && Gross(price, c.fee) != 0.0
    ensures MostMultiples(Bought(amount, price, c), c.unit, price, c.fee, amount)
  {
    hide ValidCost, WholeMultiple, Gross;
    CostPositive(c);
    GrossIs(price, c.fee);
    GrossPositive(price, c.fee);
    MostWithin(amount, Gross(price, c.fee), c.unit);
  }

  lemma GrossIs(price: real, fee: real)
    ensures Gross(price, fee) == price * (1.0 + fee)
  {}

  lemma MostWithin(amount: real, gross: real, unit: real)
    requires gross > 0.0 && unit > 0.0
    ensures var q := WholeMultiple(amount / gross, unit);
      (exists m: int :: IsMultiple(q, unit, m)) && q * gross <= amount < (q + unit) * gross
  {
    var coins := amount / gross;
    var m := MultiplesOf(coins, unit);
    var q := WholeMultiple(coins, unit);
    hide WholeMultiple, IsMultiple;
    DivMul(amount, gross);
    MulMono(q, coins, gross);
    if amount >= (q + unit) * gross {
      QuotientAtLeast(amount, gross, q + unit);
    }
  }

  lemma AmountsTold(quantity: real, price: real, c: Cost)
    ensures Paid(quantity, price, c) == quantity * price + FeeOn(quantity, price, c.fee)
    ensures Received(quantity, price, c) == quantity * price - FeeOn(quantity, price, c.fee)
    ensures FeeOn(quantity, price, c.fee) == quantity * price * c.fee
  {
    var worth := quantity * price;
    assert worth * (1.0 + c.fee) == worth + worth * c.fee;
    assert worth * (1.0 - c.fee) == worth - worth * c.fee;
  }

  lemma SellIsTold(a: Account, o: Order, open: real, index: nat, c: Cost)
    requires ValidCost(c) && open > 0.0 && o.side == Sell
    ensures FillOrder(a, o, open, index, c).Done?
    ensures var (b, f) := FillOrder(a, o, open, index, c).value; SellTold(f, a, b, open, c)
  {
    hide Received, FeeOn, ValidCost, SellPrice;
    PriceIs(open, c.adverse);
    SoldFields(a, a.units, SellPrice(open, c.adverse), index, open, c);
  }

  lemma SoldFields(a: Account, q: real, price: real, index: nat, open: real, c: Cost)
    requires q == a.units && price == open * (1.0 - c.adverse)
    ensures SellTold(Fill(index, Sell, q, price, FeeOn(q, price, c.fee)), a, Account(a.cash + Received(q, price, c), 0.0), open, c)
  {
    AmountsTold(q, price, c);
    hide Received, FeeOn;
  }

  lemma BuyIsTold(a: Account, o: Order, open: real, index: nat, fraction: real, c: Cost)
    requires ValidCost(c) && open > 0.0 && o.side == Buy && FillOrder(a, o, open, index, c).Done?
    requires o.target == a.cash * fraction <= a.cash
    ensures var (b, f) := FillOrder(a, o, open, index, c).value; BuyTold(f, a, b, open, fraction, c)
  {
    hide Bought, Paid, FeeOn, ValidCost, MostMultiples, Gross, BuyTold, BuyPrice;
    PriceIs(open, c.adverse);
    CostPositive(c);
    PricesPositive(open, c.adverse, c.fee);
    var price := BuyPrice(open, c.adverse);
    BoughtIsMost(o.target, price, c);
    BoughtFields(a, Bought(o.target, price, c), price, index, open, fraction, o.target, c);
  }

  lemma BoughtFields(a: Account, q: real, price: real, index: nat, open: real, fraction: real, target: real, c: Cost)
    requires q > 0.0 && price == open * (1.0 + c.adverse) && target == a.cash * fraction && MostMultiples(q, c.unit, price, c.fee, target)
    ensures BuyTold(Fill(index, Buy, q, price, FeeOn(q, price, c.fee)), a, Account(a.cash - Paid(q, price, c), a.units + q), open, fraction, c)
  {
    hide MostMultiples;
    SameAmount(q, c.unit, price, c.fee, target, a.cash * fraction);
    AmountsTold(q, price, c);
    hide Paid, FeeOn;
    BoughtShape(Fill(index, Buy, q, price, FeeOn(q, price, c.fee)), a, Account(a.cash - Paid(q, price, c), a.units + q), open, fraction, c);
  }

  lemma BoughtShape(f: Fill, a: Account, b: Account, open: real, fraction: real, c: Cost)
    requires f.side == Buy && f.quantity > 0.0 && f.price == open * (1.0 + c.adverse) && f.fee == f.quantity * f.price * c.fee
    requires MostMultiples(f.quantity, c.unit, f.price, c.fee, a.cash * fraction)
    requires b.cash == a.cash - f.quantity * f.price - f.fee && b.units == a.units + f.quantity
    ensures BuyTold(f, a, b, open, fraction, c)
  {}

  lemma SameAmount(q: real, unit: real, price: real, fee: real, x: real, y: real)
    requires MostMultiples(q, unit, price, fee, x) && x == y
    ensures MostMultiples(q, unit, price, fee, y)
  {}

  lemma PriceIs(open: real, adverse: real)
    ensures BuyPrice(open, adverse) == open * (1.0 + adverse) && SellPrice(open, adverse) == open * (1.0 - adverse)
  {}

  // ----- one row

  /** A row whose order, if there was one, spends a fraction of the cash or sells everything. */
  ghost predicate FilledTold(row: Row, a: Account, side: Option<Side>, open: real, fraction: real, c: Cost)
  {
    if side.None? then row.fill == None && row.cash == a.cash && row.units == a.units
    else if side.value == Sell then row.fill.Some? && SellTold(row.fill.value, a, Account(row.cash, row.units), open, c)
    else row.fill.Some? && BuyTold(row.fill.value, a, Account(row.cash, row.units), open, fraction, c)
  }

  /** What was to be filled at the open of row `k`: the action of the row before, or the passive purchase. */
  function Due(rows: seq<Row>, k: nat, g: Setting): Option<Side>
    requires k < |rows|
  {
    match g.benchmark
    case Strategic => if k == 0 then None else rows[k - 1].action
    case CashOnly => None
    case Passive => if k == 0 then Some(Buy) else None
  }

  /** The rules are read past the warmup and never on the last bar, and act on what the account holds. */
  ghost predicate RulesTold(row: Row, g: Setting, bars: seq<Bar>)
  {
    && row.index < |bars|
    && (g.benchmark == Strategic && row.index + 1 >= g.strategy.warmup && row.index + 1 < |bars| ==>
          && row.entry.Some? && row.entry == Truth(g.strategy.entry, SeriesOf(bars, g.strategy.schema), row.index)
          && row.exit.Some? && row.exit == Truth(g.strategy.exit, SeriesOf(bars, g.strategy.schema), row.index))
    && (g.benchmark != Strategic || row.index + 1 < g.strategy.warmup || row.index + 1 == |bars| ==> row.entry == None && row.exit == None)
    && (row.action == Some(Sell) <==> row.units != 0.0 && row.exit == Some(true))
    && (row.action == Some(Buy) <==> row.units == 0.0 && row.entry == Some(true))
  }

  ghost predicate RowTold(rows: seq<Row>, k: nat, g: Setting, bars: seq<Bar>)
    requires k < |rows|
  {
    var row, h := rows[k], g.scoreStart + k;
    && h < |bars| && row.index == h && row.closesAt == bars[h].start + 1
    && row.equity == row.cash + row.units * bars[h].close
    && RulesTold(row, g, bars)
    && FilledTold(row, Account(CashBefore(rows, k, g.cost.initialCash), UnitsBefore(rows, k)), Due(rows, k, g), bars[h].open,
                  g.strategy.fraction, g.cost)
  }

  ghost predicate RowsTold(rows: seq<Row>, g: Setting, bars: seq<Bar>)
  {
    forall k: nat :: k < |rows| ==> RowTold(rows, k, g, bars)
  }

  /** Between two bars: the last row shows the account, and what it calls for is pending with its share of the cash. */
  ghost predicate StateTold(s: State, g: Setting, bars: seq<Bar>, n: nat)
  {
    && RowsTold(s.rows, g, bars)
    && |s.rows| == (if n <= g.scoreStart then 0 else n - g.scoreStart)
    && s.account == Account(CashBefore(s.rows, |s.rows|, g.cost.initialCash), UnitsBefore(s.rows, |s.rows|))
    && (s.pending.Some? ==> g.benchmark == Strategic && s.rows != [] && s.rows[|s.rows| - 1].action == Some(s.pending.value.side))
    && (s.pending.None? && s.rows != [] ==> s.rows[|s.rows| - 1].action == None || g.benchmark != Strategic)
    && (s.pending.Some? && s.pending.value.side == Buy ==> s.pending.value.target == s.account.cash * g.strategy.fraction)
  }

  function SideAt(s: State, g: Setting, n: nat): Option<Side>
  {
    if g.benchmark == Passive && n == g.scoreStart then Some(Buy) else if s.pending.Some? then Some(s.pending.value.side) else None
  }

  /** What the open did to the account: nothing, or the fill on the side that was due. */
  ghost predicate OpenTold(s: State, o: State, fill: Option<Fill>, side: Option<Side>, open: real, g: Setting)
  {
    if side.None? then fill == None && o.account == s.account
    else if side.value == Sell then fill.Some? && SellTold(fill.value, s.account, o.account, open, g.cost)
    else fill.Some? && BuyTold(fill.value, s.account, o.account, open, g.strategy.fraction, g.cost)
  }

  lemma RowStaysTold(rows: seq<Row>, row: Row, k: nat, g: Setting, bars: seq<Bar>)
    requires k < |rows| && RowTold(rows, k, g, bars)
    ensures RowTold(rows + [row], k, g, bars)
  {
    hide FilledTold, RulesTold;
    var more := rows + [row];
    assert more[k] == rows[k];
    assert k > 0 ==> more[k - 1] == rows[k - 1];
    assert Due(more, k, g) == Due(rows, k, g);
  }

  /** The order filled at the open of the next row, and what it does to the account. */
  lemma OpenIsTold(s: State, g: Setting, bars: seq<Bar>, n: nat)
    requires Parsed(g.strategy) && Admissible(g, bars) && n < |bars| && Kept(s, g, n) && OpenBar(s, g, bars, n).Done?
    requires StateTold(s, g, bars, n)
    ensures var (o, fill) := OpenBar(s, g, bars, n).value;
      o.rows == s.rows && o.pending == None && OpenTold(s, o, fill, SideAt(s, g, n), bars[n].open, g)
  {
    hide FillOrder, Parsed, ValidCost, ValidOhlc, Books, RowsKept, FillsOf, BuyTold, SellTold, RowsTold;
    assert ValidHour(bars, n);
    var order := AtOpen(s, g, n);
    if order.Some? {
      if order.value.side == Buy {
        TargetIs(s, g, n);
        BuyIsTold(s.account, order.value, bars[n].open, n, g.strategy.fraction, g.cost);
      } else {
        SellIsTold(s.account, order.value, bars[n].open, n, g.cost);
      }
    }
  }

  /** The target is the fraction of the cash, and never more than all of it. */
  lemma TargetIs(s: State, g: Setting, n: nat)
    requires Parsed(g.strategy) && Kept(s, g, n) && AtOpen(s, g, n).Some? && AtOpen(s, g, n).value.side == Buy
    requires s.pending.Some? && s.pending.value.side == Buy ==> s.pending.value.target == s.account.cash * g.strategy.fraction
    ensures AtOpen(s, g, n).value.target == s.account.cash * g.strategy.fraction <= s.account.cash
  {
    hide Books, RowsKept, FillsOf, Check;
    KeptCash(s, g, n);
    MulMono(g.strategy.fraction, 1.0, s.account.cash);
  }

  lemma KeptCash(s: State, g: Setting, n: nat)
    requires Kept(s, g, n)
    ensures s.account.cash >= 0.0
  {
    hide Alternating, Balanced, RowsKept, FillsOf;
  }

  lemma StepIsTold(s: State, g: Setting, bars: seq<Bar>, n: nat)
    requires Parsed(g.strategy) && Admissible(g, bars) && n < |bars| && Kept(s, g, n) && OpenBar(s, g, bars, n).Done?
    requires StateTold(s, g, bars, n)
    ensures var (o, fill) := OpenBar(s, g, bars, n).value;
      var r := CloseBar(o, fill, g, bars, SeriesOf(bars, g.strategy.schema), n);
      r.Done? ==> StateTold(r.value, g, bars, n + 1)
  {
    hide Parsed, Admissible, OpenBar, SeriesOf, Truth, Kept, BuyTold, SellTold, RowTold;
    OpenIsTold(s, g, bars, n);
    var (o, fill) := OpenBar(s, g, bars, n).value;
    var r := CloseBar(o, fill, g, bars, SeriesOf(bars, g.strategy.schema), n);
    if r.Done? && n >= g.scoreStart {
      var row := r.value.rows[|s.rows|];
      assert r.value.rows == s.rows + [row];
      forall k: nat | k < |s.rows|
        ensures RowTold(r.value.rows, k, g, bars)
      {
        RowStaysTold(s.rows, row, k, g, bars);
      }
      NewRow(s, o, fill, row, r.value, g, bars, n);
    } else if r.Done? {
      BeforeScore(s, g, n);
    }
  }

  lemma BeforeScore(s: State, g: Setting, n: nat)
    requires Kept(s, g, n) && n < g.scoreStart
    ensures s == InitialState(g.cost)
  {}

  /** The row that a scored bar emits. */
  lemma NewRow(s: State, o: State, fill: Option<Fill>, row: Row, t: State, g: Setting, bars: seq<Bar>, n: nat)
    requires g.scoreStart <= n < |bars| && StateTold(s, g, bars, n)
    requires o.rows == s.rows && o.pending == None
    requires OpenTold(s, o, fill, SideAt(s, g, n), bars[n].open, g)
    requires CloseBar(o, fill, g, bars, SeriesOf(bars, g.strategy.schema), n) == Done(t) && t.rows == s.rows + [row]
    ensures RowTold(t.rows, |s.rows|, g, bars)
  {
    hide SeriesOf, Truth, BuyTold, SellTold, RowsTold;
    var k := |s.rows|;
    assert t.rows[k] == row;
    assert k > 0 ==> t.rows[k - 1] == s.rows[k - 1];
    assert Due(t.rows, k, g) == SideAt(s, g, n);
    RulesAreTold(o, fill, row, t, g, bars, n);
  }

  lemma RulesAreTold(o: State, fill: Option<Fill>, row: Row, t: State, g: Setting, bars: seq<Bar>, n: nat)
    requires g.scoreStart <= n < |bars| && CloseBar(o, fill, g, bars, SeriesOf(bars, g.strategy.schema), n) == Done(t) && t.rows == o.rows + [row]
    ensures RulesTold(row, g, bars)
  {
    hide SeriesOf, Truth, Target;
    assert t.rows[|o.rows|] == row;
  }

  lemma {:induction false} ReplayIsTold(g: Setting, bars: seq<Bar>, n: nat)
    requires Parsed(g.strategy) && Admissible(g, bars) && n <= |bars| && Replay(g, bars, n).Done?
    ensures g.cost.unit > 0.0 && StateTold(Replay(g, bars, n).value, g, bars, n)
  {
    hide Parsed, OpenBar, CloseBar, SeriesOf, Kept, StateTold, ValidCost, ValidHour, ValidOhlc;
    CostPositive(g.cost);
    if n == 0 {
      InitialTold(g, bars);
    } else {
      ReplayIsTold(g, bars, n - 1);
      ReplayKeeps(g, bars, n - 1);
      StepIsTold(Replay(g, bars, n - 1).value, g, bars, n - 1);
    }
  }

  lemma InitialTold(g: Setting, bars: seq<Bar>)
    ensures StateTold(InitialState(g.cost), g, bars, 0)
  {}

  // ----- whole results

  function Filled(rows: seq<Row>): set<nat> { set k: nat | k < |rows| && rows[k].fill.Some? }

  /** The fills of a trace are as many as the rows that show one. */
  lemma {:induction false} FillsCount(rows: seq<Row>)
    ensures |FillsOf(rows)| == |Filled(rows)|
  {
    if rows == [] {
      assert Filled(rows) == {};
    } else {
      var n := |rows| - 1;
      FillsCount(rows[..n]);
      assert Filled(rows) == Filled(rows[..n]) + (if rows[n].fill.Some? then {n} else {});
      assert n !in Filled(rows[..n]);
    }
  }

  lemma Counted(g: Setting, bars: seq<Bar>)
    requires Parsed(g.strategy) && Admissible(g, bars) && ReplayOf(g, bars).Done?
    ensures var r := ReplayOf(g, bars).value;
      r.fills == |Filled(r.rows)| && r.decisions == (if g.benchmark == Strategic then |Filled(r.rows)| else 0)
  {
    hide Parsed, Admissible, ReplayOf, Filled, FillsOf, RowsKept, Alternating, Profits, Basis;
    CompletedReplay(g, bars);
    FillsCount(ReplayOf(g, bars).value.rows);
  }

  /** Every row of a completed replay, and its report, says exactly this. */
  lemma {:induction false} ResultIsTold(g: Setting, bars: seq<Bar>)
    requires Parsed(g.strategy) && Admissible(g, bars) && ReplayOf(g, bars).Done?
    ensures g.cost.unit > 0.0 && g.cost.initialCash > 0.0
    ensures var r := ReplayOf(g, bars).value;
      && |r.rows| == |bars| - g.scoreStart > 0 && RowsTold(r.rows, g, bars)
      && r.terminalEquity == r.rows[|r.rows| - 1].cash + r.rows[|r.rows| - 1].units * bars[|bars| - 1].close
      && r.netReturn * g.cost.initialCash == r.terminalEquity - g.cost.initialCash
      && r.fills == |Filled(r.rows)| && r.decisions == (if g.benchmark == Strategic then |Filled(r.rows)| else 0)
  {
    hide Parsed, Replay, SeriesOf, ValidCost, ValidHour, ValidOhlc, RowTold, Filled;
    CostPositive(g.cost);
    ReplayIsTold(g, bars, |bars|);
    Counted(g, bars);
    var s := Replay(g, bars, |bars|).value;
    DivMul(Equity(s.account, bars[|bars| - 1].close) - g.cost.initialCash, g.cost.initialCash);
  }

  // ----- accepted packages

  /** A package's rule is accepted exactly with a fraction of at most one, two
      rules of its schema's shape at most twelve levels deep and together at most
      sixty-four nodes, and the bars the farther of them reads back. */
  lemma ParsedExactly(s: Strategy)
    ensures Parsed(s) <==>
      && 0.0 < s.fraction && s.fraction <= 1.0 && s.schema in {1, 2, 3, 4}
      && ExpressionMeaning.RuleShape(s.entry, s.schema) && ExpressionMeaning.RuleShape(s.exit, s.schema)
      && ExpressionMeaning.Height(s.entry) <= 12 && ExpressionMeaning.Height(s.exit) <= 12
      && ExpressionMeaning.Size(s.entry) + ExpressionMeaning.Size(s.exit) <= 64
      && var entry, exit := ExpressionMeaning.Reach(s.entry), ExpressionMeaning.Reach(s.exit);
      s.warmup >= entry && s.warmup >= exit && (s.warmup == entry || s.warmup == exit)
  {
    hide Check, ExpressionMeaning.RuleShape, ExpressionMeaning.Height, ExpressionMeaning.Size, ExpressionMeaning.Reach;
    ExpressionMeaning.CheckExactly(s.entry, 0, 0, s.schema);
    ExpressionMeaning.CheckExactly(s.exit, 0, ExpressionMeaning.Size(s.entry), s.schema);
    ExpressionMeaning.SizePositive(s.exit);
  }
}
