/** Theorems about every package replay: what the account keeps, that no row
    looks ahead, that decisions do not depend on costs, and that the profit
    decomposition balances. */
module PackageTheorems {
  import opened Exact
  import opened Drawdown
  import opened Expression
  import opened PackageReplay
  import opened PackageMetrics

  // ----- what a fill does

  /** A purchase is whole units worth at most the smaller of target and cash. */
  lemma {:induction false} BoughtWithin(amount: real, price: real, c: Cost)
    requires ValidCost(c) && price > 0.0 && Gross(price, c.fee) > 0.0 && amount >= 0.0
    ensures Bought(amount, price, c) >= 0.0
    ensures Paid(Bought(amount, price, c), price, c) <= amount
  {
    hide Gross, Worth, FeeOn, Paid, WholeMultiple, ValidCost;
    CostPositive(c);
    var gross := Gross(price, c.fee);
    var coins := amount / gross;
    QuotientAtLeast(amount, gross, 0.0);
    UnitsBelow(coins, c.unit);
    Affordable(amount, Bought(amount, price, c), price, c.fee);
    AmountsAre(Bought(amount, price, c), price, c);
  }

  lemma UnitsBelow(coins: real, unit: real)
    requires unit > 0.0 && coins >= 0.0
    ensures 0.0 <= WholeMultiple(coins, unit) <= coins
  {
    QuotientAtLeast(coins, unit, 0.0);
    DivMul(coins, unit);
    var whole := (coins / unit).Floor as real;
    MulMono(whole, coins / unit, unit);
    MulNonneg(whole, unit);
  }

  lemma ReceivedPositive(quantity: real, price: real, c: Cost)
    requires ValidCost(c) && quantity > 0.0 && price > 0.0
    ensures Received(quantity, price, c) > 0.0
  {
    hide Worth, FeeOn;
    FeeWithin(quantity, price, c.fee);
    AmountsAre(quantity, price, c);
  }

  /** What is paid or received is the worth and the fee. */
  lemma AmountsAre(quantity: real, price: real, c: Cost)
    ensures Paid(quantity, price, c) == Worth(quantity, price) + FeeOn(quantity, price, c.fee)
    ensures Received(quantity, price, c) == Worth(quantity, price) - FeeOn(quantity, price, c.fee)
  {
    hide Worth;
  }

  /** Gross amounts split into notional and fee. */
  lemma AmountsSplit(quantity: real, price: real, c: Cost, side: Side, index: nat)
    ensures var f := Fill(index, side, quantity, price, FeeOn(quantity, price, c.fee));
      && Paid(quantity, price, c) == Notional(f) + f.fee
      && Received(quantity, price, c) == Notional(f) - f.fee
  {
    hide Worth, FeeOn, Paid, Received;
    AmountsAre(quantity, price, c);
  }

  ghost predicate Solvent(a: Account) { a.cash >= 0.0 && a.units >= 0.0 && (a.cash > 0.0 || a.units > 0.0) }

  ghost predicate Sound(o: Order, a: Account)
  {
    if o.side == Sell then a.units > 0.0 else a.units == 0.0 && a.cash > 0.0 && 0.0 <= o.target <= a.cash
  }

  lemma FillFacts(a: Account, o: Order, open: real, index: nat, c: Cost)
    requires ValidCost(c) && open > 0.0 && Solvent(a) && Sound(o, a)
    ensures var r := FillOrder(a, o, open, index, c);
      && (r.Thrown? ==> r.fault == BelowUnit && o.side == Buy)
      && (r.Done? ==>
            var (b, f) := r.value;
            && Solvent(b) && f.side == o.side && f.index == index && f.quantity > 0.0
            && (if o.side == Sell then b.units == 0.0 && f.quantity == a.units && b.cash == a.cash + (Notional(f) - f.fee)
                else b.units == f.quantity && b.cash == a.cash - (Notional(f) + f.fee)))
  {
    hide ValidCost, BuyPrice, SellPrice, Bought, Paid, Received, FeeOn, Notional;
    CostPositive(c);
    PricesPositive(open, c.adverse, c.fee);
    match o.side
    case Sell =>
      AmountsSplit(a.units, SellPrice(open, c.adverse), c, Sell, index);
      ReceivedPositive(a.units, SellPrice(open, c.adverse), c);
    case Buy =>
      BoughtWithin(Min(o.target, a.cash), BuyPrice(open, c.adverse), c);
      AmountsSplit(Bought(Min(o.target, a.cash), BuyPrice(open, c.adverse), c), BuyPrice(open, c.adverse), c, Buy, index);
  }

  // ----- the invariant of the loop

  function Turn(k: nat): Side { if k % 2 == 0 then Buy else Sell }

  ghost predicate Alternating(fills: seq<Fill>)
  {
    forall k: nat :: k < |fills| ==> fills[k].side == Turn(k) && fills[k].quantity > 0.0
  }

  ghost predicate Balanced(cash: real, initial: real, fills: seq<Fill>)
  {
    cash == initial + Sum(Profits(fills)) - Basis(fills)
  }

  /** Whole-history facts, given the fills so far. */
  ghost predicate Books(a: Account, fills: seq<Fill>, initial: real)
  {
    && Solvent(a)
    && Alternating(fills)
    && (a.units > 0.0 <==> |fills| % 2 == 1)
    && Balanced(a.cash, initial, fills)
  }

  ghost predicate RowsKept(rows: seq<Row>, scoreStart: nat)
  {
    forall k :: 0 <= k < |rows| ==>
      && rows[k].index == scoreStart + k && rows[k].equity > 0.0 && rows[k].cash >= 0.0 && rows[k].units >= 0.0
      && (rows[k].fill.Some? ==> rows[k].fill.value.index == rows[k].index)
  }

  ghost predicate Kept(s: State, g: Setting, n: nat)
  {
    && Books(s.account, FillsOf(s.rows), g.cost.initialCash)
    && s.fills == |FillsOf(s.rows)|
    && (s.pending.Some? ==> Sound(s.pending.value, s.account) && g.benchmark == Strategic)
    && s.decisions == (if g.benchmark == Strategic then s.fills + (if s.pending.Some? then 1 else 0) else 0)
    && |s.rows| == (if n <= g.scoreStart then 0 else n - g.scoreStart)
    && RowsKept(s.rows, g.scoreStart)
    && (n <= g.scoreStart ==> s == InitialState(g.cost))
    && (g.benchmark == CashOnly ==> s.fills == 0)
    && (s.rows != [] ==> s.rows[|s.rows| - 1].cash == s.account.cash && s.rows[|s.rows| - 1].units == s.account.units)
  }

  lemma BooksFill(a: Account, o: Order, open: real, index: nat, c: Cost, fills: seq<Fill>, initial: real)
    requires ValidCost(c) && open > 0.0 && Books(a, fills, initial) && Sound(o, a) && FillOrder(a, o, open, index, c).Done?
    ensures var (b, f) := FillOrder(a, o, open, index, c).value; Books(b, fills + [f], initial)
  {
    hide FillOrder, Notional, Basis, Profits, Sum, ValidCost;
    FillFacts(a, o, open, index, c);
    var (b, f) := FillOrder(a, o, open, index, c).value;
    ProfitsAppend(fills, f);
    if f.side == Sell {
      SumAppend(Profits(fills), Notional(f) - f.fee - Basis(fills));
    } else {
      BasisFlat(fills);
    }
  }

  /** After an even number of alternating fills nothing is held, so nothing is carried at cost. */
  lemma BasisFlat(fills: seq<Fill>)
    requires Alternating(fills) && |fills| % 2 == 0
    ensures Basis(fills) == 0.0
  {
    hide Notional;
    if fills != [] {
      assert fills[|fills| - 1].side == Turn(|fills| - 1);
    }
  }

  lemma TargetWithin(cash: real, fraction: real)
    requires cash > 0.0 && 0.0 < fraction <= 1.0
    ensures 0.0 <= Target(cash, fraction) <= cash
  {
    MulPos(cash, fraction);
    MulMono(fraction, 1.0, cash);
    assert fraction * cash == cash * fraction;
  }

  /** The state between a bar's open and its close. */
  ghost predicate Opened(s: State, fill: Option<Fill>, g: Setting, n: nat)
  {
    var fills := if fill.Some? then FillsOf(s.rows) + [fill.value] else FillsOf(s.rows);
    && Books(s.account, fills, g.cost.initialCash)
    && s.fills == |fills|
    && s.pending == None
    && s.decisions == (if g.benchmark == Strategic then s.fills else 0)
    && |s.rows| == (if n <= g.scoreStart then 0 else n - g.scoreStart)
    && RowsKept(s.rows, g.scoreStart)
    && (fill.Some? ==> fill.value.index == n)
    && (n < g.scoreStart ==> s == InitialState(g.cost) && fill == None)
    && (g.benchmark == CashOnly ==> s.fills == 0)
  }

  lemma OpenKeeps(s: State, g: Setting, bars: seq<Bar>, n: nat)
    requires Parsed(g.strategy) && Admissible(g, bars) && n < |bars| && Kept(s, g, n)
    ensures var r := OpenBar(s, g, bars, n);
      && (r.Thrown? ==> r.fault == BelowUnit)
      && (r.Done? ==> Opened(r.value.0, r.value.1, g, n))
  {
    hide FillOrder, FillsOf, Alternating, Balanced, Check, ValidCost, RowsKept;
    assert ValidHour(bars, n);
    var o := AtOpen(s, g, n);
    if o.Some? {
      CostPositive(g.cost);
      if g.benchmark == Passive && n == g.scoreStart {
        TargetWithin(s.account.cash, g.strategy.fraction);
      }
      hide Target;
      FillFacts(s.account, o.value, bars[n].open, n, g.cost);
      if FillOrder(s.account, o.value, bars[n].open, n, g.cost).Done? {
        BooksFill(s.account, o.value, bars[n].open, n, g.cost, FillsOf(s.rows), g.cost.initialCash);
      }
    }
  }

  lemma EquityPositive(a: Account, close: real)
    requires Solvent(a) && close > 0.0
    ensures Equity(a, close) > 0.0
  {
    if a.units > 0.0 {
      MulPos(a.units, close);
    }
  }

  /** A parsed rule is defined wherever it is evaluated. */
  lemma RulesDefined(g: Setting, bars: seq<Bar>, index: nat)
    requires Parsed(g.strategy) && index < |bars| && Evaluated(g, bars, index)
    ensures Truth(g.strategy.entry, SeriesOf(bars, g.strategy.schema), index).Some?
    ensures Truth(g.strategy.exit, SeriesOf(bars, g.strategy.schema), index).Some?
  {
    hide Check, SeriesOf, Truth;
    var entry := Check(g.strategy.entry, Boolean, 0, 0, g.strategy.schema).value;
    TruthDefined(g.strategy.entry, 0, 0, g.strategy.schema, bars, index);
    TruthDefined(g.strategy.exit, 0, entry.count, g.strategy.schema, bars, index);
  }

  lemma CloseKeeps(s: State, fill: Option<Fill>, g: Setting, bars: seq<Bar>, n: nat)
    requires Parsed(g.strategy) && Admissible(g, bars) && n < |bars| && Opened(s, fill, g, n)
    ensures var r := CloseBar(s, fill, g, bars, SeriesOf(bars, g.strategy.schema), n);
      && (r.Thrown? ==> r.fault == Overflow)
      && (r.Done? ==> Kept(r.value, g, n + 1) && (n == |bars| - 1 ==> r.value.pending == None))
  {
    hide FillsOf, Alternating, Balanced, Check, ValidCost, SeriesOf, Truth, ValidOhlc;
    assert ValidHour(bars, n);
    if Evaluated(g, bars, n) {
      RulesDefined(g, bars, n);
    }
    EquityPositive(s.account, bars[n].close);
    hide Equity;
    if s.account.cash > 0.0 {
      TargetWithin(s.account.cash, g.strategy.fraction);
    }
    hide Target;
    var r := CloseBar(s, fill, g, bars, SeriesOf(bars, g.strategy.schema), n);
    if r.Done? && n >= g.scoreStart {
      var row := r.value.rows[|s.rows|];
      assert r.value.rows == s.rows + [row];
      FillsAppend(s.rows, row);
    }
  }

  /** Every replay of a parsed package keeps its account sound, and can only
      stop at a target below one unit or at the cross-runtime overflow. */
  lemma {:induction false} ReplayKeeps(g: Setting, bars: seq<Bar>, n: nat)
    requires Parsed(g.strategy) && Admissible(g, bars) && n <= |bars|
    ensures var r := Replay(g, bars, n);
      && (r.Thrown? ==> r.fault in {BelowUnit, Overflow})
      && (r.Done? ==> Kept(r.value, g, n) && (n == |bars| ==> r.value.pending == None))
  {
    hide Admissible, Parsed, Kept, Opened, OpenBar, CloseBar, SeriesOf;
    if n == 0 {
      InitialKept(g, bars);
    } else {
      ReplayKeeps(g, bars, n - 1);
      if Replay(g, bars, n - 1).Done? {
        var s := Replay(g, bars, n - 1).value;
        OpenKeeps(s, g, bars, n - 1);
        var r := OpenBar(s, g, bars, n - 1);
        if r.Done? {
          CloseKeeps(r.value.0, r.value.1, g, bars, n - 1);
        }
      }
    }
  }

  lemma InitialKept(g: Setting, bars: seq<Bar>)
    requires Admissible(g, bars)
    ensures Kept(InitialState(g.cost), g, 0) && bars != []
  {
    CostPositive(g.cost);
  }

  // ----- the completed replay

  /** What a completed replay leaves, whatever the rules, the bars and the costs:
      no decision is left unfilled, terminal equity is explained by closed trades
      and open inventory, and the streaming drawdown is a true maximum. */
  lemma CompletedReplay(g: Setting, bars: seq<Bar>)
    requires Parsed(g.strategy) && Admissible(g, bars) && ReplayOf(g, bars).Done?
    ensures var r, initial := ReplayOf(g, bars).value, g.cost.initialCash;
      && initial > 0.0 && r.rows != [] && |r.rows| == |bars| - g.scoreStart
      && RowsKept(r.rows, g.scoreStart)
      && Alternating(FillsOf(r.rows)) && r.fills == |FillsOf(r.rows)|
      && r.decisions == (if g.benchmark == Strategic then r.fills else 0)
      && var last := r.rows[|r.rows| - 1];
      && r.terminalEquity == last.equity == last.cash + Worth(last.units, bars[|bars| - 1].close)
      && r.terminalEquity - initial == Sum(Profits(FillsOf(r.rows))) + (last.equity - last.cash - Basis(FillsOf(r.rows)))
      && (last.units == 0.0 <==> |FillsOf(r.rows)| % 2 == 0)
  {
    hide Profits, Basis, FillsOf, Alternating, Sum, ValidCost, Check, Evaluated, SeriesOf, RowsKept, OpenBar;
    CostPositive(g.cost);
    var n := |bars|;
    ReplayKeeps(g, bars, n);
    var s := Replay(g, bars, n).value;
    var atOpen := OpenBar(Replay(g, bars, n - 1).value, g, bars, n - 1).value;
    assert CloseBar(atOpen.0, atOpen.1, g, bars, SeriesOf(bars, g.strategy.schema), n - 1).value == s;
    assert s.rows[|s.rows| - 1].equity == Equity(s.account, bars[n - 1].close);
  }

  /** The drawdown the metrics sink reports for a completed replay is the
      largest fall from any equity, opening cash included, to a later one. */
  lemma DrawdownIsMaximum(g: Setting, bars: seq<Bar>)
    requires Parsed(g.strategy) && Admissible(g, bars) && ReplayOf(g, bars).Done?
    ensures var rows, initial := ReplayOf(g, bars).value.rows, g.cost.initialCash;
      var e := EquitiesOf(rows);
      && initial > 0.0 && rows != []
      && (forall k :: 0 <= k < |e| ==> e[k] > 0.0)
      && (forall i: nat, j: nat :: i <= j <= |e| ==> Fall(initial, e, i, j) <= MetricsOf(initial, rows).maxDrawdown)
      && (exists i: nat, j: nat :: i <= j <= |e| && Fall(initial, e, i, j) == MetricsOf(initial, rows).maxDrawdown)
  {
    hide ReplayOf, Admissible, Parsed, Profits, Basis, FillsOf, Alternating, Sum, Fall, WorstFall, FeesOf, NotionalOf, SalesOf, HeldIn;
    CompletedReplay(g, bars);
    WorstFallIsMaximum(g.cost.initialCash, EquitiesOf(ReplayOf(g, bars).value.rows));
  }

  // ----- no lookahead

  lemma {:induction false} NoLookahead(g: Setting, v: seq<Bar>, w: seq<Bar>, j: nat)
    requires Parsed(g.strategy) && Admissible(g, v) && Admissible(g, w)
    requires j < |v| && j < |w| && v[..j] == w[..j]
    ensures Replay(g, v, j) == Replay(g, w, j)
  {
    hide Admissible, Parsed, OpenBar, CloseBar, SeriesOf;
    if j > 0 {
      assert v[..j - 1] == v[..j][..j - 1] == w[..j][..j - 1] == w[..j - 1];
      NoLookahead(g, v, w, j - 1);
      if Replay(g, v, j - 1).Done? {
        var s := Replay(g, v, j - 1).value;
        assert v[j - 1] == v[..j][j - 1] == w[j - 1];
        OpenNeedsOnlyOpen(s, g, v, w, j - 1);
        var r := OpenBar(s, g, v, j - 1);
        if r.Done? {
          CloseNeedsOnlyPrefix(r.value.0, r.value.1, g, v, w, j - 1);
        }
      }
    }
  }

  lemma OpenNeedsOnlyOpen(s: State, g: Setting, v: seq<Bar>, w: seq<Bar>, j: nat)
    requires Admissible(g, v) && Admissible(g, w) && j < |v| && j < |w| && v[j].open == w[j].open
    ensures OpenBar(s, g, v, j) == OpenBar(s, g, w, j)
  {
    hide FillOrder;
  }

  lemma CloseNeedsOnlyPrefix(s: State, fill: Option<Fill>, g: Setting, v: seq<Bar>, w: seq<Bar>, j: nat)
    requires Parsed(g.strategy) && j + 1 < |v| && j + 1 < |w| && v[..j + 1] == w[..j + 1]
    ensures CloseBar(s, fill, g, v, SeriesOf(v, g.strategy.schema), j) == CloseBar(s, fill, g, w, SeriesOf(w, g.strategy.schema), j)
  {
    hide Check, SeriesOf, Truth, Equity, Target;
    var schema := g.strategy.schema;
    assert SamePrefix(v, w, j);
    assert v[j] == v[..j + 1][j] == w[j];
    SeriesPrefix(v, w, schema, j, j);
    TruthPrefix(g.strategy.entry, 0, 0, schema, v, w, j);
    TruthPrefix(g.strategy.exit, 0, Check(g.strategy.entry, Boolean, 0, 0, schema).value.count, schema, v, w, j);
  }

  /** A fill at bar `j` depends on bar `j` only through its open, and on no later bar. */
  lemma {:induction false} FillNeedsOnlyOpen(g: Setting, v: seq<Bar>, w: seq<Bar>, j: nat)
    requires Parsed(g.strategy) && Admissible(g, v) && Admissible(g, w)
    requires j < |v| && j < |w| && v[..j] == w[..j] && v[j].open == w[j].open && Replay(g, v, j).Done?
    ensures Replay(g, w, j).Done?
    ensures OpenBar(Replay(g, v, j).value, g, v, j) == OpenBar(Replay(g, w, j).value, g, w, j)
  {
    hide Admissible, Parsed, Replay, OpenBar;
    NoLookahead(g, v, w, j);
    OpenNeedsOnlyOpen(Replay(g, v, j).value, g, v, w, j);
  }

  /** Rows are only ever appended: an earlier state's rows begin the later state's. */
  lemma {:induction false} RowsGrow(g: Setting, bars: seq<Bar>, m: nat, n: nat)
    requires Admissible(g, bars) && m <= n <= |bars| && Replay(g, bars, n).Done?
    ensures Replay(g, bars, m).Done? && Replay(g, bars, m).value.rows <= Replay(g, bars, n).value.rows
  {
    hide Admissible, OpenBar, CloseBar, SeriesOf;
    if m < n {
      var (s, fill) := OpenBar(Replay(g, bars, n - 1).value, g, bars, n - 1).value;
      StepAppends(Replay(g, bars, n - 1).value, g, bars, n - 1);
      RowsGrow(g, bars, m, n - 1);
    }
  }

  lemma StepAppends(s: State, g: Setting, bars: seq<Bar>, n: nat)
    requires Admissible(g, bars) && n < |bars| && OpenBar(s, g, bars, n).Done?
    ensures var (o, fill) := OpenBar(s, g, bars, n).value;
      var r := CloseBar(o, fill, g, bars, SeriesOf(bars, g.strategy.schema), n);
      r.Done? ==> s.rows <= r.value.rows
  {
    hide SeriesOf, FillOrder, Truth, Evaluated, Equity, Decide;
  }

  /** The rows of two completed replays agree before the first bar at which the histories may differ. */
  lemma RowsBefore(g: Setting, v: seq<Bar>, w: seq<Bar>, j: nat)
    requires Parsed(g.strategy) && Admissible(g, v) && Admissible(g, w)
    requires g.scoreStart <= j < |v| && j < |w| && v[..j] == w[..j]
    requires ReplayOf(g, v).Done? && ReplayOf(g, w).Done?
    ensures var k := j - g.scoreStart;
      var a, b := ReplayOf(g, v).value.rows, ReplayOf(g, w).value.rows;
      k <= |a| && k <= |b| && a[..k] == b[..k]
  {
    hide Admissible, Parsed, Replay;
    NoLookahead(g, v, w, j);
    RowsGrow(g, v, j, |v|);
    RowsGrow(g, w, j, |w|);
    ReplayKeeps(g, v, j);
  }

  // ----- what each row shows, and how rows follow one another

  /** The action a flat or holding account takes on the closed-bar predicates. */
  function Acts(units: real, entry: bool, exit: bool): Option<Side>
  {
    if units != 0.0 && exit then Some(Sell) else if units == 0.0 && entry then Some(Buy) else None
  }

  /** A row shows the rule values of its own bar where rules are evaluated, the action they call for, and nothing elsewhere. */
  ghost predicate Shows(row: Row, g: Setting, bars: seq<Bar>)
  {
    row.index < |bars| &&
    if Evaluated(g, bars, row.index) then
      && row.entry == Truth(g.strategy.entry, SeriesOf(bars, g.strategy.schema), row.index)
      && row.exit == Truth(g.strategy.exit, SeriesOf(bars, g.strategy.schema), row.index)
      && row.entry.Some? && row.exit.Some?
      && row.action == Acts(row.units, row.entry.value, row.exit.value)
    else row.entry == None && row.exit == None && row.action == None
  }

  ghost predicate FilledAt(fill: Option<Fill>, action: Option<Side>, open: real, c: Cost)
  {
    if action.None? then fill == None
    else
      && fill.Some? && fill.value.side == action.value
      && fill.value.price == (if action.value == Buy then BuyPrice(open, c.adverse) else SellPrice(open, c.adverse))
  }

  ghost predicate Chained(rows: seq<Row>, g: Setting, bars: seq<Bar>)
  {
    && (forall k: nat :: k < |rows| ==> Shows(rows[k], g, bars) && rows[k].index == g.scoreStart + k)
    && (g.benchmark == Strategic ==>
          && (rows != [] ==> rows[0].fill == None)
          && forall k: nat :: 0 < k < |rows| ==> FilledAt(rows[k].fill, rows[k - 1].action, bars[rows[k].index].open, g.cost))
  }

  ghost predicate PendingFollows(s: State)
  {
    if s.rows == [] then s.pending == None
    else (if s.pending.Some? then Some(s.pending.value.side) else None) == s.rows[|s.rows| - 1].action
  }

  /** Every scored decision is filled at exactly the next open, on its own side
      and at that open's adverse price; and no other fill happens. */
  lemma {:induction false} ReplayChains(g: Setting, bars: seq<Bar>, n: nat)
    requires Parsed(g.strategy) && Admissible(g, bars) && n <= |bars| && Replay(g, bars, n).Done?
    ensures Chained(Replay(g, bars, n).value.rows, g, bars)
    ensures g.benchmark == Strategic ==> PendingFollows(Replay(g, bars, n).value)
  {
    hide Admissible, Parsed, OpenBar, CloseBar, SeriesOf, Kept, Chained, PendingFollows;
    if n == 0 {
      InitialChained(g, bars);
    } else {
      ReplayChains(g, bars, n - 1);
      ReplayKeeps(g, bars, n - 1);
      StepChains(Replay(g, bars, n - 1).value, g, bars, n - 1);
    }
  }

  lemma InitialChained(g: Setting, bars: seq<Bar>)
    ensures Chained(InitialState(g.cost).rows, g, bars) && PendingFollows(InitialState(g.cost))
  {}

  lemma StepChains(s: State, g: Setting, bars: seq<Bar>, n: nat)
    requires Parsed(g.strategy) && Admissible(g, bars) && n < |bars| && Kept(s, g, n) && Chained(s.rows, g, bars)
    requires g.benchmark == Strategic ==> PendingFollows(s)
    requires OpenBar(s, g, bars, n).Done?
    ensures var (o, fill) := OpenBar(s, g, bars, n).value;
      var r := CloseBar(o, fill, g, bars, SeriesOf(bars, g.strategy.schema), n);
      r.Done? ==> Chained(r.value.rows, g, bars) && (g.benchmark == Strategic ==> PendingFollows(r.value))
  {
    hide Parsed, Admissible, OpenBar, CloseBar, SeriesOf, Shows, Books, RowsKept, FillsOf, BuyPrice, SellPrice;
    var (o, fill) := OpenBar(s, g, bars, n).value;
    var r := CloseBar(o, fill, g, bars, SeriesOf(bars, g.strategy.schema), n);
    OpenFollows(s, g, bars, n);
    if r.Done? {
      CloseShows(o, fill, g, bars, n);
    }
  }

  lemma OpenFollows(s: State, g: Setting, bars: seq<Bar>, n: nat)
    requires Parsed(g.strategy) && Admissible(g, bars) && n < |bars| && Kept(s, g, n)
    requires OpenBar(s, g, bars, n).Done?
    ensures var (o, fill) := OpenBar(s, g, bars, n).value;
      && o.rows == s.rows && o.pending == None
      && (n < g.scoreStart ==> fill == None)
      && (g.benchmark == Strategic ==> FilledAt(fill, if s.pending.Some? then Some(s.pending.value.side) else None, bars[n].open, g.cost))
  {
    hide Parsed, ValidCost, ValidOhlc, Books, RowsKept, FillsOf, Target, Bought, Paid, Received, FeeOn, BuyPrice, SellPrice;
    assert ValidHour(bars, n);
  }

  lemma CloseShows(o: State, fill: Option<Fill>, g: Setting, bars: seq<Bar>, n: nat)
    requires n < |bars| && o.pending == None && CloseBar(o, fill, g, bars, SeriesOf(bars, g.strategy.schema), n).Done?
    ensures var t := CloseBar(o, fill, g, bars, SeriesOf(bars, g.strategy.schema), n).value;
      if n < g.scoreStart then t.rows == o.rows && t.pending == None
      else
        && |t.rows| == |o.rows| + 1 && t.rows == o.rows + [t.rows[|o.rows|]]
        && var row := t.rows[|o.rows|];
        && Shows(row, g, bars) && row.index == n && row.fill == fill
        && row.action == (if t.pending.Some? then Some(t.pending.value.side) else None)
  {
    hide SeriesOf, Truth, Equity, Target;
  }

  /** The rows of a completed replay repeat the execution-free signal trace wherever both are defined. */
  lemma MatchesSignalTrace(g: Setting, bars: seq<Bar>, k: nat)
    requires Parsed(g.strategy) && Admissible(g, bars) && ReplayOf(g, bars).Done? && g.benchmark == Strategic
    requires k < |ReplayOf(g, bars).value.rows|
    ensures 1 <= g.strategy.warmup < |bars|
    ensures var row, trace := ReplayOf(g, bars).value.rows[k], SignalTrace(g.strategy, bars);
      var at := row.index - (g.strategy.warmup - 1);
      if 0 <= at < |trace| then row.entry.Some? && row.exit.Some? && trace[at] == Signal(row.index, row.entry, row.exit)
      else row.entry == None && row.exit == None
  {
    hide Check, SeriesOf, Truth, Replay;
    WarmupPositive(g.strategy);
    ReplayChains(g, bars, |bars|);
    assert Shows(ReplayOf(g, bars).value.rows[k], g, bars);
  }

  lemma WarmupPositive(s: Strategy)
    requires Parsed(s)
    ensures s.warmup >= 1
  {
    BooleanWarmup(s.entry, 0, 0, s.schema);
  }

  lemma {:induction false} BooleanWarmup(node: Node, depth: nat, count: nat, schema: int)
    requires Check(node, Boolean, depth, count, schema).Some?
    ensures Check(node, Boolean, depth, count, schema).value.warmup >= 1
    decreases node
  {
    match node
    case Compare(_, left, right) =>
      assert Check(left, Numeric, depth + 1, count + 1, schema).value.warmup >= 1 by { NumericWarmup(left, depth + 1, count + 1, schema); }
    case Logic(_, args) => BooleanWarmup(args[0], depth + 1, count + 1, schema);
    case Negate(arg) => BooleanWarmup(arg, depth + 1, count + 1, schema);
    case _ =>
  }

  lemma NumericWarmup(node: Node, depth: nat, count: nat, schema: int)
    requires Check(node, Numeric, depth, count, schema).Some?
    ensures Check(node, Numeric, depth, count, schema).value.warmup >= 1
  {}

  // ----- decisions do not depend on costs

  ghost predicate AlikeFill(a: Option<Fill>, b: Option<Fill>)
  {
    if a.None? then b.None? else b.Some? && a.value.side == b.value.side && a.value.index == b.value.index
  }

  /** Two rows that may differ in money but not in rule values, action, or fill side. */
  ghost predicate AlikeRow(a: Row, b: Row)
  {
    && a.index == b.index && a.closesAt == b.closesAt && a.rsi == b.rsi && a.upper == b.upper && a.lower == b.lower
    && a.entry == b.entry && a.exit == b.exit && a.action == b.action
    && AlikeFill(a.fill, b.fill) && (a.units > 0.0 <==> b.units > 0.0)
  }

  ghost predicate AlikeRows(a: seq<Row>, b: seq<Row>)
  {
    |a| == |b| && forall k: nat :: k < |a| ==> AlikeRow(a[k], b[k])
  }

  ghost predicate AlikeOrder(a: Option<Order>, b: Option<Order>)
  {
    if a.None? then b.None? else b.Some? && a.value.side == b.value.side
  }

  ghost predicate Alike(a: State, b: State)
  {
    && (a.account.units > 0.0 <==> b.account.units > 0.0)
    && AlikeOrder(a.pending, b.pending)
    && a.fills == b.fills && a.decisions == b.decisions
    && AlikeRows(a.rows, b.rows)
  }

  /** The entry, exit, action and fill-side sequence of a strategy is the same
      under any two cost settings that both complete. */
  lemma {:induction false} CostIndependence(g: Setting, cost: Cost, bars: seq<Bar>, n: nat)
    requires var h := g.(cost := cost);
      && Parsed(g.strategy) && Admissible(g, bars) && Admissible(h, bars) && n <= |bars|
      && Replay(g, bars, n).Done? && Replay(h, bars, n).Done?
    ensures Alike(Replay(g, bars, n).value, Replay(g.(cost := cost), bars, n).value)
  {
    hide Admissible, Parsed, OpenBar, CloseBar, SeriesOf, Kept, Opened;
    var h := g.(cost := cost);
    if n > 0 {
      CostIndependence(g, cost, bars, n - 1);
      ReplayKeeps(g, bars, n - 1);
      ReplayKeeps(h, bars, n - 1);
      var a, b := Replay(g, bars, n - 1).value, Replay(h, bars, n - 1).value;
      hide Alike;
      OpenKeeps(a, g, bars, n - 1);
      OpenKeeps(b, h, bars, n - 1);
      OpenAlike(a, b, g, cost, bars, n - 1);
      var x, y := OpenBar(a, g, bars, n - 1).value, OpenBar(b, h, bars, n - 1).value;
      CloseAlike(x.0, x.1, y.0, y.1, g, cost, bars, n - 1);
    }
  }

  lemma OpenAlike(a: State, b: State, g: Setting, cost: Cost, bars: seq<Bar>, n: nat)
    requires var h := g.(cost := cost);
      && Parsed(g.strategy) && Admissible(g, bars) && Admissible(h, bars) && n < |bars|
      && Kept(a, g, n) && Kept(b, h, n) && Alike(a, b)
      && OpenBar(a, g, bars, n).Done? && OpenBar(b, h, bars, n).Done?
    ensures var x, y := OpenBar(a, g, bars, n).value, OpenBar(b, g.(cost := cost), bars, n).value;
      Alike(x.0, y.0) && AlikeFill(x.1, y.1)
  {
    hide FillOrder, FillsOf, Alternating, Balanced, Check, ValidCost, RowsKept, AlikeRows;
    assert ValidHour(bars, n);
    var h := g.(cost := cost);
    var o, p := AtOpen(a, g, n), AtOpen(b, h, n);
    CostPositive(g.cost);
    CostPositive(cost);
    if o.Some? {
      if g.benchmark == Passive && n == g.scoreStart {
        TargetWithin(a.account.cash, g.strategy.fraction);
        TargetWithin(b.account.cash, g.strategy.fraction);
      }
      hide Target;
      FillFacts(a.account, o.value, bars[n].open, n, g.cost);
      FillFacts(b.account, p.value, bars[n].open, n, cost);
    }
  }

  lemma CloseAlike(a: State, f: Option<Fill>, b: State, e: Option<Fill>, g: Setting, cost: Cost, bars: seq<Bar>, n: nat)
    requires n < |bars| && Opened(a, f, g, n) && Opened(b, e, g.(cost := cost), n)
    requires Alike(a, b) && AlikeFill(f, e)
    ensures var series := SeriesOf(bars, g.strategy.schema);
      var x, y := CloseBar(a, f, g, bars, series, n), CloseBar(b, e, g.(cost := cost), bars, series, n);
      x.Done? && y.Done? ==> Alike(x.value, y.value)
  {
    hide FillsOf, Alternating, Balanced, SeriesOf, Truth, RowsKept, Equity, Target;
  }
}
