/** The rule language of normalized packages: the static check that computes a
    warmup length, the evaluator over closed bars, and the proof that the
    warmup length is enough. */
module Expression {
  import opened Exact
  import opened Indicators

  datatype Bar = Bar(start: int, open: real, close: real, high: Option<real>, low: Option<real>)

  /** A rule node as parsed from a package, before any check.  `Number(None)` is
      a value that is no finite decimal, `Unknown` any other operation. */
  datatype Node =
    | Number(value: Option<real>)
    | CloseAt(lag: int)
    | Sma(window: int, lag: int)
    | RsiWilder(period: int, lag: int)
    | Donchian(upper: bool, window: int, lag: int)
    | Calendar(weekday: int, hour: int)
    | Compare(greater: bool, left: Node, right: Node)
    | Logic(conjunction: bool, args: seq<Node>)
    | Negate(arg: Node)
    | Unknown

  datatype Kind = Numeric | Boolean

  const MAX_DEPTH := 12
  const MAX_NODES := 64

  /** A successful check: the warmup the node needs and the node counter after it. */
  datatype Checked = Checked(warmup: nat, count: nat)

  function MaxNat(a: nat, b: nat): nat { if a >= b then a else b }

  /** The recursive type and resource check; `None` is a rejection. */
  function Check(node: Node, kind: Kind, depth: nat, count: nat, schema: int): Option<Checked>
    decreases node, 1
  {
    if depth > MAX_DEPTH || count + 1 > MAX_NODES then None
    else
      var next := count + 1;
      match node
      case Calendar(weekday, hour) =>
        if kind == Boolean && schema == 4 && 1 <= weekday <= 7 && 0 <= hour <= 23 then Some(Checked(1, next)) else None
      case Donchian(upper, window, lag) =>
        if kind == Numeric && schema == 3 && window == (if upper then 480 else 240) && lag == 1
        then Some(Checked(window + 1, next)) else None
      case RsiWilder(period, lag) =>
        if kind == Numeric && schema == 2 && period == 14 && lag == 0 then Some(Checked(15, next)) else None
      case Number(value) =>
        if kind == Numeric && value.Some? then Some(Checked(1, next)) else None
      case CloseAt(lag) =>
        if kind == Numeric && 0 <= lag <= 10000 then Some(Checked(lag + 1, next)) else None
      case Sma(window, lag) =>
        if kind == Numeric && 0 <= lag <= 10000 && 2 <= window <= 10000 then Some(Checked(lag + window, next)) else None
      case Compare(_, left, right) =>
        if kind != Boolean then None else
        var l := Check(left, Numeric, depth + 1, next, schema);
        if l.None? then None else
        var r := Check(right, Numeric, depth + 1, l.value.count, schema);
        if r.None? then None else
        Some(Checked(MaxNat(l.value.warmup, r.value.warmup), r.value.count))
      case Logic(_, args) =>
        if kind == Boolean && 2 <= |args| <= 8 then CheckAll(args, depth + 1, next, schema) else None
      case Negate(arg) =>
        if kind == Boolean then Check(arg, Boolean, depth + 1, next, schema) else None
      case Unknown => None
  }

  function CheckAll(args: seq<Node>, depth: nat, count: nat, schema: int): Option<Checked>
    decreases args, 0
  {
    if args == [] then Some(Checked(0, count)) else
    var first := Check(args[0], Boolean, depth, count, schema);
    if first.None? then None else
    var rest := CheckAll(args[1..], depth, first.value.count, schema);
    if rest.None? then None else
    Some(Checked(MaxNat(first.value.warmup, rest.value.warmup), rest.value.count))
  }

  /** What the evaluator reads: closes, opening hours, and the indicators the schema provides. */
  datatype Series = Series(closes: seq<real>, starts: seq<int>, rsi: seq<real>,
                           upper: seq<Option<real>>, lower: seq<Option<real>>)

  function CloseOf(bars: seq<Bar>): (r: seq<real>)
    ensures |r| == |bars| && forall i :: 0 <= i < |bars| ==> r[i] == bars[i].close
  {
    seq(|bars|, i requires 0 <= i < |bars| => bars[i].close)
  }

  function Field(o: Option<real>): real { if o.None? then 0.0 else o.value }

  function HighOf(bars: seq<Bar>): (r: seq<real>)
    ensures |r| == |bars| && forall i :: 0 <= i < |bars| ==> r[i] == Field(bars[i].high)
  {
    seq(|bars|, i requires 0 <= i < |bars| => Field(bars[i].high))
  }

  function LowOf(bars: seq<Bar>): (r: seq<real>)
    ensures |r| == |bars| && forall i :: 0 <= i < |bars| ==> r[i] == Field(bars[i].low)
  {
    seq(|bars|, i requires 0 <= i < |bars| => Field(bars[i].low))
  }

  const UPPER_WINDOW: nat := 480
  const LOWER_WINDOW: nat := 240

  /** The series of a history, from the indicators' own definitions. */
  function SeriesOf(bars: seq<Bar>, schema: int): Series
  {
    var closes := CloseOf(bars);
    Series(closes, seq(|bars|, i requires 0 <= i < |bars| => bars[i].start),
           if schema == 2 then seq(|bars|, i requires 0 <= i < |bars| => Rsi(closes, i)) else [],
           if schema == 3 then seq(|bars|, i requires 0 <= i < |bars| => PriorExtreme(HighOf(bars), UPPER_WINDOW, true, i)) else [],
           if schema == 3 then seq(|bars|, i requires 0 <= i < |bars| => PriorExtreme(LowOf(bars), LOWER_WINDOW, false, i)) else [])
  }

  /** The series of a history, as the program computes it: a deque pass per channel side and a Wilder pass. */
  method BuildSeries(bars: seq<Bar>, schema: int) returns (s: Series)
    ensures s == SeriesOf(bars, schema)
  {
    var closes := CloseOf(bars);
    var rsi: seq<real>, upper: seq<Option<real>>, lower: seq<Option<real>> := [], [], [];
    ghost var pushed, popped;
    if schema == 2 {
      rsi := Rsi14(closes);
    }
    if schema == 3 {
      upper, pushed, popped := PriorExtremes(HighOf(bars), UPPER_WINDOW, true);
      lower, pushed, popped := PriorExtremes(LowOf(bars), LOWER_WINDOW, false);
    }
    s := Series(closes, seq(|bars|, i requires 0 <= i < |bars| => bars[i].start), rsi, upper, lower);
    hide PriorExtreme, Rsi;
    var spec := SeriesOf(bars, schema);
    assert s.rsi == spec.rsi && s.upper == spec.upper && s.lower == spec.lower;
  }

  /** The bar's UTC calendar slot: ISO weekday (1 Monday) and hour of its close, hours counted from a Monday midnight. */
  predicate InSlot(start: int, weekday: int, hour: int)
  {
    (start + 1) % 24 == hour && (start + 1) / 24 % 7 + 1 == weekday
  }

  /** Evaluate a numeric node at a bar; `None` means it would read outside the closed bars or an absent indicator. */
  function Value(node: Node, s: Series, index: int): Option<real>
  {
    match node
    case RsiWilder(_, _) => if 0 <= index < |s.rsi| then Some(s.rsi[index]) else None
    case Donchian(upper, _, _) =>
      var channel := if upper then s.upper else s.lower;
      if 0 <= index < |channel| then channel[index] else None
    case Number(value) => value
    case CloseAt(lag) => if 0 <= index - lag < |s.closes| then Some(s.closes[index - lag]) else None
    case Sma(window, lag) =>
      var end := index - lag + 1;
      if 0 < window && 0 <= end - window && end <= |s.closes| then Some(Sum(s.closes[end - window..end]) / window as real) else None
    case _ => None
  }

  /** Evaluate a boolean node at a bar, with short-circuit clauses. */
  function Truth(node: Node, s: Series, index: int): Option<bool>
    decreases node, 1
  {
    match node
    case Calendar(weekday, hour) => if 0 <= index < |s.starts| then Some(InSlot(s.starts[index], weekday, hour)) else None
    case Compare(greater, left, right) =>
      var l, r := Value(left, s, index), Value(right, s, index);
      if l.None? || r.None? then None else Some(if greater then l.value > r.value else l.value < r.value)
    case Logic(conjunction, args) => TruthAll(args, conjunction, s, index)
    case Negate(arg) =>
      var t := Truth(arg, s, index);
      if t.None? then None else Some(!t.value)
    case _ => None
  }

  function TruthAll(args: seq<Node>, conjunction: bool, s: Series, index: int): Option<bool>
    decreases args, 0
  {
    if args == [] then Some(conjunction) else
    var first := Truth(args[0], s, index);
    if first.None? then None
    else if first.value != conjunction then first
    else TruthAll(args[1..], conjunction, s, index)
  }

  // ----- the warmup length is enough

  /** Every numeric node the check accepts has a value once the warmup has passed. */
  lemma {:induction false} ValueDefined(node: Node, depth: nat, count: nat, schema: int, bars: seq<Bar>, index: nat)
    requires Check(node, Numeric, depth, count, schema).Some? && index < |bars|
    requires index + 1 >= Check(node, Numeric, depth, count, schema).value.warmup
    ensures Value(node, SeriesOf(bars, schema), index).Some?
  {
    hide Rsi, Extreme;
  }

  /** Warmup soundness: an accepted rule reads no missing bar and no absent indicator at any bar past its warmup. */
  lemma {:induction false} TruthDefined(node: Node, depth: nat, count: nat, schema: int, bars: seq<Bar>, index: nat)
    requires Check(node, Boolean, depth, count, schema).Some? && index < |bars|
    requires index + 1 >= Check(node, Boolean, depth, count, schema).value.warmup
    ensures Truth(node, SeriesOf(bars, schema), index).Some?
    decreases node, 1
  {
    hide SeriesOf, Value;
    match node
    case Compare(_, left, right) =>
      var l := Check(left, Numeric, depth + 1, count + 1, schema).value;
      ValueDefined(left, depth + 1, count + 1, schema, bars, index);
      ValueDefined(right, depth + 1, l.count, schema, bars, index);
    case Logic(conjunction, args) =>
      TruthAllDefined(args, conjunction, depth + 1, count + 1, schema, bars, index);
    case Negate(arg) =>
      TruthDefined(arg, depth + 1, count + 1, schema, bars, index);
    case Calendar(_, _) =>
      SeriesLengths(bars, schema);
    case _ =>
  }

  lemma {:induction false} TruthAllDefined(args: seq<Node>, conjunction: bool, depth: nat, count: nat, schema: int, bars: seq<Bar>, index: nat)
    requires CheckAll(args, depth, count, schema).Some? && index < |bars|
    requires index + 1 >= CheckAll(args, depth, count, schema).value.warmup
    ensures TruthAll(args, conjunction, SeriesOf(bars, schema), index).Some?
    decreases args, 0
  {
    hide SeriesOf, Check, Truth;
    if args != [] {
      var first := Check(args[0], Boolean, depth, count, schema).value;
      TruthDefined(args[0], depth, count, schema, bars, index);
      TruthAllDefined(args[1..], conjunction, depth, first.count, schema, bars, index);
    }
  }

  lemma SeriesLengths(bars: seq<Bar>, schema: int)
    ensures |SeriesOf(bars, schema).closes| == |SeriesOf(bars, schema).starts| == |bars|
    ensures forall i :: 0 <= i < |bars| ==> SeriesOf(bars, schema).closes[i] == bars[i].close && SeriesOf(bars, schema).starts[i] == bars[i].start
  {
    hide Rsi, PriorExtreme;
  }

  // ----- what a value depends on

  predicate UsesRsi(node: Node)
    decreases node, 1
  {
    match node
    case RsiWilder(_, _) => true
    case Compare(_, left, right) => UsesRsi(left) || UsesRsi(right)
    case Logic(_, args) => AnyUsesRsi(args)
    case Negate(arg) => UsesRsi(arg)
    case _ => false
  }

  predicate AnyUsesRsi(args: seq<Node>)
    decreases args, 0
  {
    args != [] && (UsesRsi(args[0]) || AnyUsesRsi(args[1..]))
  }

  /** Two histories show the same last `n` bars, the one ending at `i` and the other at `j`. */
  predicate SameTail(v: seq<Bar>, i: nat, w: seq<Bar>, j: nat, n: nat)
  {
    i < |v| && j < |w| && n <= i + 1 && n <= j + 1 && v[i + 1 - n..i + 1] == w[j + 1 - n..j + 1]
  }

  lemma SameTailShrinks(v: seq<Bar>, i: nat, w: seq<Bar>, j: nat, n: nat, m: nat)
    requires SameTail(v, i, w, j, n) && m <= n
    ensures SameTail(v, i, w, j, m)
  {
    assert v[i + 1 - m..i + 1] == v[i + 1 - n..i + 1][n - m..];
    assert w[j + 1 - m..j + 1] == w[j + 1 - n..j + 1][n - m..];
  }

  lemma SameTailAt(v: seq<Bar>, i: nat, w: seq<Bar>, j: nat, n: nat, k: nat)
    requires SameTail(v, i, w, j, n) && k < n
    ensures v[i - k] == w[j - k]
  {
    assert v[i + 1 - n..i + 1][n - 1 - k] == v[i - k];
    assert w[j + 1 - n..j + 1][n - 1 - k] == w[j - k];
  }

  lemma SlicesEqual<T>(a: seq<T>, i: nat, b: seq<T>, j: nat, n: nat)
    requires i + n <= |a| && j + n <= |b|
    requires forall k :: i <= k < i + n ==> a[k] == b[j + (k - i)]
    ensures a[i..i + n] == b[j..j + n]
  {
    var x, y := a[i..i + n], b[j..j + n];
    forall m | 0 <= m < n
      ensures x[m] == y[m]
    {
      assert a[i + m] == b[j + ((i + m) - i)];
    }
  }

  lemma SmaLocal(window: nat, lag: nat, schema: int, v: seq<Bar>, i: nat, w: seq<Bar>, j: nat)
    requires window > 0 && SameTail(v, i, w, j, lag + window)
    ensures Value(Sma(window, lag), SeriesOf(v, schema), i) == Value(Sma(window, lag), SeriesOf(w, schema), j)
  {
    SeriesLengths(v, schema);
    SeriesLengths(w, schema);
    hide SeriesOf;
    var a, b := SeriesOf(v, schema).closes, SeriesOf(w, schema).closes;
    var from, into := i - lag + 1 - window, j - lag + 1 - window;
    forall k | from <= k < from + window
      ensures a[k] == b[into + (k - from)]
    {
      SameTailAt(v, i, w, j, lag + window, i - k);
    }
    SlicesEqual(a, from, b, into, window);
    assert a[from..from + window] == b[into..into + window];
  }

  lemma ChannelValue(upper: bool, bars: seq<Bar>, i: nat)
    requires i < |bars|
    ensures var window := if upper then UPPER_WINDOW else LOWER_WINDOW;
      Value(Donchian(upper, window, 1), SeriesOf(bars, 3), i)
        == PriorExtreme(SideOf(upper, bars), window, upper, i)
  {
    hide PriorExtreme, Rsi;
  }

  lemma ChannelLocal(upper: bool, schema: int, v: seq<Bar>, i: nat, w: seq<Bar>, j: nat)
    requires schema == 3 && SameTail(v, i, w, j, (if upper then UPPER_WINDOW else LOWER_WINDOW) + 1)
    ensures var node := Donchian(upper, if upper then UPPER_WINDOW else LOWER_WINDOW, 1);
      Value(node, SeriesOf(v, schema), i) == Value(node, SeriesOf(w, schema), j)
  {
    hide PriorExtreme, SeriesOf, Value;
    ChannelValue(upper, v, i);
    ChannelValue(upper, w, j);
    SideLocal(upper, if upper then UPPER_WINDOW else LOWER_WINDOW, v, i, w, j);
  }

  function SideOf(upper: bool, bars: seq<Bar>): (r: seq<real>)
    ensures |r| == |bars|
  {
    if upper then HighOf(bars) else LowOf(bars)
  }

  lemma SideTail(upper: bool, n: nat, v: seq<Bar>, i: nat, w: seq<Bar>, j: nat)
    requires SameTail(v, i, w, j, n + 1)
    ensures SideOf(upper, v)[i - n..i] == SideOf(upper, w)[j - n..j]
  {
    forall k | i - n <= k < i
      ensures SideOf(upper, v)[k] == SideOf(upper, w)[j - n + (k - (i - n))]
    {
      SameTailAt(v, i, w, j, n + 1, i - k);
    }
    hide SideOf;
    SlicesEqual(SideOf(upper, v), i - n, SideOf(upper, w), j - n, n);
  }

  lemma SideLocal(upper: bool, n: nat, v: seq<Bar>, i: nat, w: seq<Bar>, j: nat)
    requires n > 0 && SameTail(v, i, w, j, n + 1)
    ensures PriorExtreme(SideOf(upper, v), n, upper, i) == PriorExtreme(SideOf(upper, w), n, upper, j)
  {
    hide PriorExtreme, SideOf;
    SideTail(upper, n, v, i, w, j);
    PriorExtremeLocal(SideOf(upper, v), SideOf(upper, w), n, upper, i, j);
  }

  lemma ValueLocal(node: Node, depth: nat, count: nat, schema: int, v: seq<Bar>, i: nat, w: seq<Bar>, j: nat)
    requires Check(node, Numeric, depth, count, schema).Some? && !UsesRsi(node)
    requires SameTail(v, i, w, j, Check(node, Numeric, depth, count, schema).value.warmup)
    ensures Value(node, SeriesOf(v, schema), i) == Value(node, SeriesOf(w, schema), j)
  {
    hide SeriesOf;
    var n := Check(node, Numeric, depth, count, schema).value.warmup;
    match node
    case CloseAt(lag) =>
      SeriesLengths(v, schema);
      SeriesLengths(w, schema);
      SameTailAt(v, i, w, j, n, lag);
    case Sma(window, lag) =>
      SmaLocal(window, lag, schema, v, i, w, j);
    case Donchian(upper, _, _) =>
      ChannelLocal(upper, schema, v, i, w, j);
    case _ =>
  }

  /** Without RSI, a rule depends only on the last `warmup` bars: equal tails give
      equal answers, wherever they stand in their histories. */
  lemma {:induction false} TruthLocal(node: Node, depth: nat, count: nat, schema: int, v: seq<Bar>, i: nat, w: seq<Bar>, j: nat)
    requires Check(node, Boolean, depth, count, schema).Some? && !UsesRsi(node)
    requires SameTail(v, i, w, j, Check(node, Boolean, depth, count, schema).value.warmup)
    ensures Truth(node, SeriesOf(v, schema), i) == Truth(node, SeriesOf(w, schema), j)
    decreases node, 1
  {
    hide SeriesOf, Value, SameTail;
    var n := Check(node, Boolean, depth, count, schema).value.warmup;
    match node
    case Compare(_, left, right) =>
      var l := Check(left, Numeric, depth + 1, count + 1, schema).value;
      var r := Check(right, Numeric, depth + 1, l.count, schema).value;
      SameTailShrinks(v, i, w, j, n, l.warmup);
      SameTailShrinks(v, i, w, j, n, r.warmup);
      ValueLocal(left, depth + 1, count + 1, schema, v, i, w, j);
      ValueLocal(right, depth + 1, l.count, schema, v, i, w, j);
    case Logic(conjunction, args) =>
      TruthAllLocal(args, conjunction, depth + 1, count + 1, schema, v, i, w, j);
    case Negate(arg) =>
      TruthLocal(arg, depth + 1, count + 1, schema, v, i, w, j);
    case Calendar(_, _) =>
      CalendarLocal(node, schema, v, i, w, j);
    case _ =>
  }

  lemma CalendarLocal(node: Node, schema: int, v: seq<Bar>, i: nat, w: seq<Bar>, j: nat)
    requires node.Calendar? && SameTail(v, i, w, j, 1)
    ensures Truth(node, SeriesOf(v, schema), i) == Truth(node, SeriesOf(w, schema), j)
  {
    hide SeriesOf, InSlot;
    SeriesLengths(v, schema);
    SeriesLengths(w, schema);
    SameTailAt(v, i, w, j, 1, 0);
  }

  lemma {:induction false} TruthAllLocal(args: seq<Node>, conjunction: bool, depth: nat, count: nat, schema: int,
                                         v: seq<Bar>, i: nat, w: seq<Bar>, j: nat)
    requires CheckAll(args, depth, count, schema).Some? && !AnyUsesRsi(args)
    requires SameTail(v, i, w, j, CheckAll(args, depth, count, schema).value.warmup)
    ensures TruthAll(args, conjunction, SeriesOf(v, schema), i) == TruthAll(args, conjunction, SeriesOf(w, schema), j)
    decreases args, 0
  {
    hide SeriesOf, Check, Truth, UsesRsi, SameTail;
    if args != [] {
      var n := CheckAll(args, depth, count, schema).value.warmup;
      var first := Check(args[0], Boolean, depth, count, schema).value;
      var rest := CheckAll(args[1..], depth, first.count, schema).value;
      SameTailShrinks(v, i, w, j, n, first.warmup);
      SameTailShrinks(v, i, w, j, n, rest.warmup);
      TruthLocal(args[0], depth, count, schema, v, i, w, j);
      TruthAllLocal(args[1..], conjunction, depth, first.count, schema, v, i, w, j);
    }
  }

  /** Two histories agree through bar `i`. */
  predicate SamePrefix(v: seq<Bar>, w: seq<Bar>, i: nat)
  {
    i < |v| && i < |w| && v[..i + 1] == w[..i + 1]
  }

  lemma SeriesPrefix(v: seq<Bar>, w: seq<Bar>, schema: int, i: nat, k: nat)
    requires SamePrefix(v, w, i) && k <= i
    ensures var a, b := SeriesOf(v, schema), SeriesOf(w, schema);
      && |a.closes| == |a.starts| == |v| && |b.closes| == |b.starts| == |w|
      && a.closes[k] == b.closes[k] && a.starts[k] == b.starts[k]
      && (schema == 2 ==> |a.rsi| == |v| && |b.rsi| == |w| && a.rsi[k] == b.rsi[k])
      && (schema != 2 ==> a.rsi == b.rsi == [])
      && (schema == 3 ==> |a.upper| == |a.lower| == |v| && |b.upper| == |b.lower| == |w| &&
                          a.upper[k] == b.upper[k] && a.lower[k] == b.lower[k])
      && (schema != 3 ==> a.upper == a.lower == b.upper == b.lower == [])
  {
    PrefixAt(v, w, i, k);
    SeriesLengths(v, schema);
    SeriesLengths(w, schema);
    if schema == 2 {
      assert CloseOf(v)[..k + 1] == CloseOf(w)[..k + 1] by {
        forall m: nat | m < k + 1 ensures CloseOf(v)[m] == CloseOf(w)[m] { PrefixAt(v, w, i, m); }
      }
      RsiPrefix(CloseOf(v), CloseOf(w), k);
    }
    if schema == 3 {
      ChannelPrefix(v, w, i, k, UPPER_WINDOW, true);
      ChannelPrefix(v, w, i, k, LOWER_WINDOW, false);
    }
    hide PriorExtreme, Rsi;
  }

  lemma PrefixAt(v: seq<Bar>, w: seq<Bar>, i: nat, k: nat)
    requires SamePrefix(v, w, i) && k <= i
    ensures v[k] == w[k]
  {
    assert v[..i + 1][k] == v[k] && w[..i + 1][k] == w[k];
  }

  lemma ChannelPrefix(v: seq<Bar>, w: seq<Bar>, i: nat, k: nat, window: nat, upper: bool)
    requires SamePrefix(v, w, i) && k <= i && window > 0
    ensures PriorExtreme(HighOf(v), window, upper, k) == PriorExtreme(HighOf(w), window, upper, k)
    ensures PriorExtreme(LowOf(v), window, upper, k) == PriorExtreme(LowOf(w), window, upper, k)
  {
    hide Extreme;
    if k >= window {
      forall m | k - window <= m < k - window + window
        ensures HighOf(v)[m] == HighOf(w)[k - window + (m - (k - window))]
        ensures LowOf(v)[m] == LowOf(w)[k - window + (m - (k - window))]
      {
        PrefixAt(v, w, i, m);
      }
      SlicesEqual(HighOf(v), k - window, HighOf(w), k - window, window);
      SlicesEqual(LowOf(v), k - window, LowOf(w), k - window, window);
    }
  }

  lemma SmaPrefix(window: int, lag: int, schema: int, v: seq<Bar>, w: seq<Bar>, i: nat)
    requires SamePrefix(v, w, i) && lag >= 0
    ensures Value(Sma(window, lag), SeriesOf(v, schema), i) == Value(Sma(window, lag), SeriesOf(w, schema), i)
  {
    hide SeriesOf;
    SeriesLengths(v, schema);
    SeriesLengths(w, schema);
    var from := i - lag + 1 - window;
    if 0 < window && 0 <= from {
      var a, b := SeriesOf(v, schema).closes, SeriesOf(w, schema).closes;
      forall m | from <= m < from + window
        ensures a[m] == b[from + (m - from)]
      {
        PrefixAt(v, w, i, m);
      }
      SlicesEqual(a, from, b, from, window);
      assert a[from..from + window] == b[from..from + window];
    }
  }

  lemma ValuePrefix(node: Node, schema: int, v: seq<Bar>, w: seq<Bar>, i: nat)
    requires SamePrefix(v, w, i) && (node.CloseAt? || node.Sma? ==> node.lag >= 0)
    ensures Value(node, SeriesOf(v, schema), i) == Value(node, SeriesOf(w, schema), i)
  {
    hide SeriesOf;
    SeriesPrefix(v, w, schema, i, i);
    match node
    case CloseAt(lag) =>
      if lag <= i {
        SeriesPrefix(v, w, schema, i, i - lag);
      }
    case Sma(window, lag) =>
      SmaPrefix(window, lag, schema, v, w, i);
    case _ =>
  }

  /** Even with RSI, a rule at bar `i` depends on nothing after bar `i`. */
  lemma {:induction false} TruthPrefix(node: Node, depth: nat, count: nat, schema: int, v: seq<Bar>, w: seq<Bar>, i: nat)
    requires Check(node, Boolean, depth, count, schema).Some? && SamePrefix(v, w, i)
    ensures Truth(node, SeriesOf(v, schema), i) == Truth(node, SeriesOf(w, schema), i)
    decreases node, 1
  {
    hide SeriesOf, Value, SamePrefix;
    match node
    case Compare(_, left, right) =>
      ValuePrefix(left, schema, v, w, i);
      ValuePrefix(right, schema, v, w, i);
    case Logic(conjunction, args) =>
      TruthAllPrefix(args, conjunction, depth + 1, count + 1, schema, v, w, i);
    case Negate(arg) =>
      TruthPrefix(arg, depth + 1, count + 1, schema, v, w, i);
    case Calendar(_, _) =>
      SeriesPrefix(v, w, schema, i, i);
      PrefixInside(v, w, i);
    case _ =>
  }

  lemma PrefixInside(v: seq<Bar>, w: seq<Bar>, i: nat)
    requires SamePrefix(v, w, i)
    ensures i < |v| && i < |w|
  {}

  lemma {:induction false} TruthAllPrefix(args: seq<Node>, conjunction: bool, depth: nat, count: nat, schema: int,
                                          v: seq<Bar>, w: seq<Bar>, i: nat)
    requires CheckAll(args, depth, count, schema).Some? && SamePrefix(v, w, i)
    ensures TruthAll(args, conjunction, SeriesOf(v, schema), i) == TruthAll(args, conjunction, SeriesOf(w, schema), i)
    decreases args, 0
  {
    hide SeriesOf, Check, Truth, SamePrefix;
    if args != [] {
      TruthPrefix(args[0], depth, count, schema, v, w, i);
      TruthAllPrefix(args[1..], conjunction, depth, Check(args[0], Boolean, depth, count, schema).value.count, schema, v, w, i);
    }
  }
}
