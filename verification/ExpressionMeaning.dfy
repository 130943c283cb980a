/** What an accepted rule is and means, without counters, absent values or
    short-circuits: its shape and size, and a plain truth value at every bar past
    its reach. */
module ExpressionMeaning {
  import opened Exact
  import opened Indicators
  import opened Expression

  // ----- which rules are accepted

  /** How many levels lie below a node, and how many nodes it has. */
  function Height(node: Node): nat
    decreases node, 1
  {
    match node
    case Compare(_, left, right) => 1 + (if Height(left) >= Height(right) then Height(left) else Height(right))
    case Logic(_, args) => if args == [] then 0 else 1 + Highest(args)
    case Negate(arg) => 1 + Height(arg)
    case _ => 0
  }

  function Highest(args: seq<Node>): nat
    decreases args, 0
  {
    if args == [] then 0 else if Height(args[0]) >= Highest(args[1..]) then Height(args[0]) else Highest(args[1..])
  }

  function Size(node: Node): nat
    decreases node, 1
  {
    match node
    case Compare(_, left, right) => 1 + Size(left) + Size(right)
    case Logic(_, args) => 1 + Sizes(args)
    case Negate(arg) => 1 + Size(arg)
    case _ => 1
  }

  function Sizes(args: seq<Node>): nat
    decreases args, 0
  {
    if args == [] then 0 else Size(args[0]) + Sizes(args[1..])
  }

  /** The numbers a schema offers. */
  ghost predicate NumberShape(node: Node, schema: int)
  {
    match node
    case Number(value) => value.Some?
    case CloseAt(lag) => 0 <= lag <= 10000
    case Sma(window, lag) => 2 <= window <= 10000 && 0 <= lag <= 10000
    case RsiWilder(period, lag) => schema == 2 && period == 14 && lag == 0
    case Donchian(upper, window, lag) => schema == 3 && lag == 1 && window == (if upper then 480 else 240)
    case _ => false
  }

  /** The conditions over them. */
  ghost predicate RuleShape(node: Node, schema: int)
    decreases node
  {
    match node
    case Compare(_, left, right) => NumberShape(left, schema) && NumberShape(right, schema)
    case Logic(_, args) => 2 <= |args| <= 8 && forall a <- args :: RuleShape(a, schema)
    case Negate(arg) => RuleShape(arg, schema)
    case Calendar(weekday, hour) => schema == 4 && 1 <= weekday <= 7 && 0 <= hour <= 23
    case _ => false
  }

  /** How many closed bars a number reads back, its own included. */
  function NumberReach(node: Node): int
  {
    match node
    case CloseAt(lag) => lag + 1
    case Sma(window, lag) => window + lag
    case RsiWilder(_, _) => 15
    case Donchian(_, window, _) => window + 1
    case _ => 1
  }

  function Reach(node: Node): int
    decreases node, 1
  {
    match node
    case Compare(_, left, right) => if NumberReach(left) >= NumberReach(right) then NumberReach(left) else NumberReach(right)
    case Logic(_, args) => Reaches(args)
    case Negate(arg) => Reach(arg)
    case _ => NumberReach(node)
  }

  function Reaches(args: seq<Node>): int
    decreases args, 0
  {
    if args == [] then 0 else if Reach(args[0]) >= Reaches(args[1..]) then Reach(args[0]) else Reaches(args[1..])
  }

  lemma NumberIs(node: Node, schema: int)
    requires NumberShape(node, schema)
    ensures Height(node) == 0 && Size(node) == 1 && Reach(node) == NumberReach(node)
  {}

  lemma CheckNumber(node: Node, depth: nat, count: nat, schema: int)
    ensures var r := Check(node, Numeric, depth, count, schema);
      && (r.Some? <==> NumberShape(node, schema) && depth <= 12 && count + 1 <= 64)
      && (r.Some? ==> r.value.warmup == NumberReach(node) && r.value.count == count + 1)
  {}

  lemma RestShape(args: seq<Node>, schema: int)
    requires args != []
    ensures (forall a <- args :: RuleShape(a, schema)) <==> RuleShape(args[0], schema) && forall a <- args[1..] :: RuleShape(a, schema)
  {
    hide RuleShape;
    assert args == [args[0]] + args[1..];
  }

  lemma ComparisonExactly(greater: bool, left: Node, right: Node, depth: nat, count: nat, schema: int)
    ensures var node := Compare(greater, left, right);
      var r := Check(node, Boolean, depth, count, schema);
      && (r.Some? <==> RuleShape(node, schema) && depth + Height(node) <= 12 && count + Size(node) <= 64)
      && (r.Some? ==> r.value.warmup == Reach(node) && r.value.count == count + Size(node))
  {
    hide NumberShape, NumberReach;
    CheckNumber(left, depth + 1, count + 1, schema);
    CheckNumber(right, depth + 1, count + 2, schema);
    if NumberShape(left, schema) {
      NumberIs(left, schema);
    }
    if NumberShape(right, schema) {
      NumberIs(right, schema);
    }
  }

  /** The check accepts a rule exactly when its shape is offered, it is at most
      twelve levels deep and the nodes so far and its own are at most sixty-four;
      and it returns the bars the rule reads back and the nodes so far. */
  lemma {:induction false} CheckExactly(node: Node, depth: nat, count: nat, schema: int)
    ensures var r := Check(node, Boolean, depth, count, schema);
      && (r.Some? <==> RuleShape(node, schema) && depth + Height(node) <= 12 && count + Size(node) <= 64)
      && (r.Some? ==> r.value.warmup == Reach(node) && r.value.count == count + Size(node))
    decreases node, 1
  {
    hide NumberShape;
    match node
    case Compare(greater, left, right) => ComparisonExactly(greater, left, right, depth, count, schema);
    case Logic(_, args) => CheckAllExactly(args, depth + 1, count + 1, schema);
    case Negate(arg) => CheckExactly(arg, depth + 1, count + 1, schema);
    case _ =>
  }

  lemma {:induction false} CheckAllExactly(args: seq<Node>, depth: nat, count: nat, schema: int)
    ensures var r := CheckAll(args, depth, count, schema);
      && (r.Some? <==> (forall a <- args :: RuleShape(a, schema)) && (args != [] ==> depth + Highest(args) <= 12 && count + Sizes(args) <= 64))
      && (r.Some? ==> r.value.warmup == Reaches(args) && r.value.count == count + Sizes(args))
    decreases args, 0
  {
    hide RuleShape, Check, Height, Size, Reach;
    if args != [] {
      RestShape(args, schema);
      CheckExactly(args[0], depth, count, schema);
      CheckAllExactly(args[1..], depth, count + Size(args[0]), schema);
      SizePositive(args[0]);
    }
  }

  lemma SizePositive(node: Node)
    ensures Size(node) >= 1
  {}

  /** Rules of the other schemas hold no RSI, so they depend on their last bars alone. */
  lemma {:induction false} OnlySecondUsesRsi(node: Node, schema: int)
    requires RuleShape(node, schema) && schema != 2
    ensures !UsesRsi(node)
    decreases node, 1
  {
    match node
    case Logic(_, args) => NoneUsesRsi(args, schema);
    case Negate(arg) => OnlySecondUsesRsi(arg, schema);
    case _ =>
  }

  lemma {:induction false} NoneUsesRsi(args: seq<Node>, schema: int)
    requires (forall a <- args :: RuleShape(a, schema)) && schema != 2
    ensures !AnyUsesRsi(args)
    decreases args, 0
  {
    hide RuleShape, UsesRsi;
    if args != [] {
      RestShape(args, schema);
      OnlySecondUsesRsi(args[0], schema);
      NoneUsesRsi(args[1..], schema);
    }
  }

  // ----- what an accepted rule means

  function ClosesSum(bars: seq<Bar>, lo: nat, hi: nat): real
    requires lo <= hi <= |bars|
  {
    if lo == hi then 0.0 else ClosesSum(bars, lo, hi - 1) + bars[hi - 1].close
  }

  function High(b: Bar): real { if b.high.None? then 0.0 else b.high.value }

  function Low(b: Bar): real { if b.low.None? then 0.0 else b.low.value }

  /** The highest high, and the lowest low, of the bars `lo` up to but not including `hi`. */
  function HighOver(bars: seq<Bar>, lo: nat, hi: nat): real
    requires lo < hi <= |bars|
  {
    if lo + 1 == hi then High(bars[lo])
    else if High(bars[hi - 1]) > HighOver(bars, lo, hi - 1) then High(bars[hi - 1]) else HighOver(bars, lo, hi - 1)
  }

  function LowOver(bars: seq<Bar>, lo: nat, hi: nat): real
    requires lo < hi <= |bars|
  {
    if lo + 1 == hi then Low(bars[lo])
    else if Low(bars[hi - 1]) < LowOver(bars, lo, hi - 1) then Low(bars[hi - 1]) else LowOver(bars, lo, hi - 1)
  }

  /** The value of a number at a bar past its reach. */
  ghost function NumberAt(node: Node, schema: int, bars: seq<Bar>, i: nat): real
    requires NumberShape(node, schema) && i < |bars| && NumberReach(node) <= i + 1
  {
    match node
    case Number(value) => value.value
    case CloseAt(lag) => bars[i - lag].close
    case Sma(window, lag) => ClosesSum(bars, i - lag + 1 - window, i - lag + 1) / window as real
    case RsiWilder(_, _) => Rsi(CloseOf(bars), i)
    case Donchian(upper, window, _) => (if upper then HighOver(bars, i - window, i) else LowOver(bars, i - window, i))
  }

  /** Whether a rule holds at a bar past its reach: conjunctions hold when all clauses do, disjunctions when some does. */
  ghost predicate Holds(node: Node, schema: int, bars: seq<Bar>, i: nat)
    requires RuleShape(node, schema) && i < |bars| && Reach(node) <= i + 1
    decreases node
  {
    match node
    case Compare(greater, left, right) =>
      if greater then NumberAt(left, schema, bars, i) > NumberAt(right, schema, bars, i)
      else NumberAt(left, schema, bars, i) < NumberAt(right, schema, bars, i)
    case Logic(conjunction, args) =>
      (ReachIn(args);
       if conjunction then forall a <- args :: Holds(a, schema, bars, i) else exists a <- args :: Holds(a, schema, bars, i))
    case Negate(arg) => !Holds(arg, schema, bars, i)
    case Calendar(weekday, hour) => (bars[i].start + 1) % 24 == hour && (bars[i].start + 1) / 24 % 7 == weekday - 1
  }

  lemma {:induction false} ReachIn(args: seq<Node>)
    ensures forall a <- args :: Reach(a) <= Reaches(args)
  {
    if args != [] {
      ReachIn(args[1..]);
      assert args == [args[0]] + args[1..];
    }
  }

  lemma {:induction false} SumIs(bars: seq<Bar>, lo: nat, hi: nat)
    requires lo <= hi <= |bars|
    ensures Sum(CloseOf(bars)[lo..hi]) == ClosesSum(bars, lo, hi)
  {
    var s := CloseOf(bars)[lo..hi];
    if lo < hi {
      assert s[..|s| - 1] == CloseOf(bars)[lo..hi - 1];
      SumIs(bars, lo, hi - 1);
    }
  }

  lemma {:induction false} HighOverIs(bars: seq<Bar>, lo: nat, hi: nat) returns (k: nat)
    requires lo < hi <= |bars|
    ensures lo <= k < hi && High(bars[k]) == HighOver(bars, lo, hi)
    ensures forall j :: lo <= j < hi ==> High(bars[j]) <= HighOver(bars, lo, hi)
  {
    hide High;
    if lo + 1 == hi {
      k := lo;
    } else {
      k := HighOverIs(bars, lo, hi - 1);
      if High(bars[hi - 1]) > HighOver(bars, lo, hi - 1) {
        k := hi - 1;
      }
    }
  }

  lemma {:induction false} LowOverIs(bars: seq<Bar>, lo: nat, hi: nat) returns (k: nat)
    requires lo < hi <= |bars|
    ensures lo <= k < hi && Low(bars[k]) == LowOver(bars, lo, hi)
    ensures forall j :: lo <= j < hi ==> Low(bars[j]) >= LowOver(bars, lo, hi)
  {
    hide Low;
    if lo + 1 == hi {
      k := lo;
    } else {
      k := LowOverIs(bars, lo, hi - 1);
      if Low(bars[hi - 1]) < LowOver(bars, lo, hi - 1) {
        k := hi - 1;
      }
    }
  }

  lemma ChannelIs(bars: seq<Bar>, upper: bool, lo: nat, hi: nat)
    requires lo < hi <= |bars|
    ensures Extreme((if upper then HighOf(bars) else LowOf(bars))[lo..hi], upper) == if upper then HighOver(bars, lo, hi) else LowOver(bars, lo, hi)
  {
    var window := (if upper then HighOf(bars) else LowOf(bars))[lo..hi];
    var k: nat;
    if upper {
      k := HighOverIs(bars, lo, hi);
    } else {
      k := LowOverIs(bars, lo, hi);
    }
    assert forall j :: 0 <= j < hi - lo ==> window[j] == if upper then High(bars[lo + j]) else Low(bars[lo + j]);
    ExtremeIs(window, upper, k - lo);
  }

  lemma NumberIsValue(node: Node, schema: int, bars: seq<Bar>, i: nat)
    requires NumberShape(node, schema) && i < |bars| && NumberReach(node) <= i + 1
    ensures Value(node, SeriesOf(bars, schema), i) == Some(NumberAt(node, schema, bars, i))
  {
    hide Rsi, Extreme, HighOver, LowOver, ClosesSum, Sum;
    match node
    case Sma(window, lag) => SumIs(bars, i - lag + 1 - window, i - lag + 1);
    case Donchian(upper, window, _) => ChannelIs(bars, upper, i - window, i);
    case _ =>
  }

  /** At every bar past its reach the evaluator answers an accepted rule with its plain truth value. */
  lemma {:induction false} TruthIsHolds(node: Node, schema: int, bars: seq<Bar>, i: nat)
    requires RuleShape(node, schema) && i < |bars| && Reach(node) <= i + 1
    ensures Truth(node, SeriesOf(bars, schema), i) == Some(Holds(node, schema, bars, i))
    decreases node, 1
  {
    hide SeriesOf, Value, NumberAt, NumberShape;
    match node
    case Compare(_, left, right) =>
      NumberIsValue(left, schema, bars, i);
      NumberIsValue(right, schema, bars, i);
    case Logic(conjunction, args) =>
      ReachIn(args);
      TruthAllIsHolds(args, conjunction, schema, bars, i);
    case Negate(arg) => TruthIsHolds(arg, schema, bars, i);
    case Calendar(_, _) => SeriesLengths(bars, schema);
  }

  lemma {:induction false} TruthAllIsHolds(args: seq<Node>, conjunction: bool, schema: int, bars: seq<Bar>, i: nat)
    requires (forall a <- args :: RuleShape(a, schema) && Reach(a) <= i + 1) && i < |bars|
    ensures TruthAll(args, conjunction, SeriesOf(bars, schema), i)
         == Some(if conjunction then forall a <- args :: Holds(a, schema, bars, i) else exists a <- args :: Holds(a, schema, bars, i))
    decreases args, 0
  {
    hide SeriesOf, Truth, RuleShape, Reach, Holds;
    if args != [] {
      assert args == [args[0]] + args[1..];
      TruthIsHolds(args[0], schema, bars, i);
      TruthAllIsHolds(args[1..], conjunction, schema, bars, i);
    }
  }

  /** An accepted rule is in shape and reaches back as far as the check says,
      so from then on the evaluator gives its plain truth value. */
  lemma AcceptedMeans(node: Node, depth: nat, count: nat, schema: int, bars: seq<Bar>, i: nat)
    requires Check(node, Boolean, depth, count, schema).Some? && i < |bars|
    requires Check(node, Boolean, depth, count, schema).value.warmup <= i + 1
    ensures RuleShape(node, schema) && Reach(node) <= i + 1
    ensures Truth(node, SeriesOf(bars, schema), i) == Some(Holds(node, schema, bars, i))
  {
    hide Truth, SeriesOf, Holds, Check;
    CheckExactly(node, depth, count, schema);
    TruthIsHolds(node, schema, bars, i);
  }
}
