/** What an imported program means, bar by bar, without any compilation: the
    declarations are evaluated in order, each to a series, a number or a
    condition, and then the two `if` conditions.  The compiled rule means the same. */
module PineMeaning {
  import opened Exact
  import opened Numerals
  import opened PineLexer
  import opened PineSubset
  import opened PineCanonical
  import E = Expression

  /** The value of a name: a number at every bar where it is defined, a whole number, or a condition. */
  datatype Value = Series(at: int -> Option<real>) | Whole(number: nat) | Flag(holds: int -> Option<bool>)

  type Environment = map<string, Value>

  function CloseAt(closes: seq<real>, i: int): Option<real> { if 0 <= i < |closes| then Some(closes[i]) else None }

  /** The sum of a series over the `n` bars ending at a bar. */
  function SumEnding(f: int -> Option<real>, i: int, n: nat): Option<real>
    decreases n
  {
    if n == 0 then Some(0.0)
    else if SumEnding(f, i - 1, n - 1).None? || f(i).None? then None
    else Some(SumEnding(f, i - 1, n - 1).value + f(i).value)
  }

  function Average(f: int -> Option<real>, i: int, n: nat): Option<real>
  {
    if n == 0 || SumEnding(f, i, n).None? then None else Some(SumEnding(f, i, n).value / n as real)
  }

  function Compared(greater: bool, l: Option<real>, r: Option<real>): Option<bool>
  {
    if l.None? || r.None? then None else Some(if greater then l.value > r.value else l.value < r.value)
  }

  /** The value of a name, a number, the close, or an average of any series over any number of bars. */
  function AtomValue(parts: seq<string>, env: Environment, closes: seq<real>): Option<Value>
    decreases |parts|
  {
    if parts == ["close"] then Some(Series((i: int) => CloseAt(closes, i)))
    else if |parts| == 1 && IsNumber(parts[0]) then Some(Whole(Natural(parts[0])))
    else if |parts| == 1 then if parts[0] in env then Some(env[parts[0]]) else None
    else if |parts| == 6 && parts[..2] == ["ta.sma", "("] && parts[3] == "," && parts[5] == ")" then
      var source, length := AtomValue(parts[2..3], env, closes), AtomValue(parts[4..5], env, closes);
      if source.None? || length.None? || !source.value.Series? || !length.value.Whole? then None
      else Some(Series((i: int) => Average(source.value.at, i, length.value.number)))
    else None
  }

  /** A comparison of two series is a condition; anything else is an atom. */
  function ValueOf(tokens: seq<string>, env: Environment, closes: seq<real>): Option<Value>
  {
    var signs := Comparisons(tokens);
    ComparisonsInside(tokens);
    if signs == [] then AtomValue(tokens, env, closes)
    else if |signs| == 1 then
      var left, right := AtomValue(tokens[..signs[0]], env, closes), AtomValue(tokens[signs[0] + 1..], env, closes);
      var greater := tokens[signs[0]] == ">";
      if left.None? || right.None? || !left.value.Series? || !right.value.Series? then None
      else Some(Flag((i: int) => Compared(greater, left.value.at(i), right.value.at(i))))
    else None
  }

  /** The environment after the first `n` declarations, in order. */
  function EnvironmentAfter(body: seq<Statement>, n: nat, closes: seq<real>): Option<Environment>
    requires n <= |body|
  {
    if n == 0 then Some(map[])
    else
      var env := EnvironmentAfter(body, n - 1, closes);
      var s := body[n - 1];
      if env.None? || |s.tokens| < 2 then None
      else
        var value := ValueOf(s.tokens[2..], env.value, closes);
        if value.None? then None else Some(env.value[s.tokens[0] := value.value])
  }

  /** The entry and the exit condition of a program body over a history of closes. */
  function Meaning(body: seq<Statement>, closes: seq<real>): Option<(Value, Value)>
  {
    var n := Declared(body);
    var env := EnvironmentAfter(body, n, closes);
    if env.None? || |body| - n != 4 || body[n].tokens == [] || body[n + 2].tokens == [] then None
    else
      var entry, exit := ValueOf(body[n].tokens[1..], env.value, closes), ValueOf(body[n + 2].tokens[1..], env.value, closes);
      if entry.None? || exit.None? then None else Some((entry.value, exit.value))
  }

  // ----- symbols stand for values

  function Closes(closes: seq<real>): E.Series { E.Series(closes, [], [], [], []) }

  /** A symbol stands for a value when they agree at every bar. */
  ghost predicate StandsFor(x: Symbol, v: Value, closes: seq<real>)
  {
    match x
    case CloseSymbol => v.Series? && forall i :: v.at(i) == CloseAt(closes, i)
    case IntSymbol(n) => v == Whole(n)
    case SmaSymbol(w) => v.Series? && forall i :: v.at(i) == E.Value(E.Sma(w, 0), Closes(closes), i)
    case Comparison(g, w) => v.Flag? && forall i :: v.holds(i) == E.Truth(Cross(g, w), Closes(closes), i)
  }

  ghost predicate AllStand(symbols: Symbols, env: Environment, closes: seq<real>)
  {
    forall name <- symbols :: name in env && StandsFor(symbols[name], env[name], closes)
  }

  /** Summing a close series bar by bar is the sum of the window. */
  lemma {:induction false} SumIsWindow(f: int -> Option<real>, closes: seq<real>, i: int, n: nat)
    requires forall j :: f(j) == CloseAt(closes, j)
    ensures SumEnding(f, i, n) ==
      if n == 0 then Some(0.0)
      else if 0 <= i + 1 - n && i < |closes| then Some(Sum(closes[i + 1 - n..i + 1])) else None
    decreases n
  {
    if n > 0 {
      SumIsWindow(f, closes, i - 1, n - 1);
      if 0 <= i + 1 - n && i < |closes| {
        var window := closes[i + 1 - n..i + 1];
        assert window[..n - 1] == closes[i + 1 - n..i];
        assert window[n - 1] == closes[i];
        if n == 1 {
          assert Sum(window[..0]) == 0.0;
        }
      }
    }
  }

  lemma AverageIsSma(f: int -> Option<real>, closes: seq<real>, i: int, n: nat)
    requires forall j :: f(j) == CloseAt(closes, j)
    ensures Average(f, i, n) == E.Value(E.Sma(n, 0), Closes(closes), i)
  {
    SumIsWindow(f, closes, i, n);
  }

  /** An accepted atom has a value, and its symbol stands for it. */
  lemma AtomStands(parts: seq<string>, symbols: Symbols, env: Environment, closes: seq<real>)
    requires AllStand(symbols, env, closes) && Atom(parts, symbols).Ok?
    ensures AtomValue(parts, env, closes).Some? && StandsFor(Atom(parts, symbols).value, AtomValue(parts, env, closes).value, closes)
    decreases |parts|
  {
    hide Natural, IsNumber, Average, E.Value, E.Truth;
    if parts == ["close"] {
    } else if |parts| == 1 {
      assert IsAlias(parts[0]) ==> !IsNumber(parts[0]) by { AliasNotNumber(parts[0]); }
    } else {
      AtomStands(parts[2..3], symbols, env, closes);
      AtomStands(parts[4..5], symbols, env, closes);
      var f, n := AtomValue(parts[2..3], env, closes).value.at, AtomValue(parts[4..5], env, closes).value.number;
      forall i
        ensures Average(f, i, n) == E.Value(E.Sma(n, 0), Closes(closes), i)
      {
        AverageIsSma(f, closes, i, n);
      }
    }
  }

  lemma AliasNotNumber(s: string)
    ensures IsAlias(s) ==> !IsNumber(s)
  {}

  lemma ExpressionStands(tokens: seq<string>, symbols: Symbols, env: Environment, closes: seq<real>)
    requires AllStand(symbols, env, closes) && ReadExpression(tokens, symbols).Ok?
    ensures ValueOf(tokens, env, closes).Some? && StandsFor(ReadExpression(tokens, symbols).value, ValueOf(tokens, env, closes).value, closes)
  {
    hide Atom, AtomValue, AllStand, Average;
    var signs := Comparisons(tokens);
    ComparisonsInside(tokens);
    if signs == [] {
      AtomStands(tokens, symbols, env, closes);
    } else {
      AtomStands(tokens[..signs[0]], symbols, env, closes);
      AtomStands(tokens[signs[0] + 1..], symbols, env, closes);
      var left, right := AtomValue(tokens[..signs[0]], env, closes).value, AtomValue(tokens[signs[0] + 1..], env, closes).value;
      var g, w := tokens[signs[0]] == ">", ReadExpression(tokens, symbols).value.length;
      forall i
        ensures Compared(g, left.at(i), right.at(i)) == E.Truth(Cross(g, w), Closes(closes), i)
      {
        CrossTruth(g, w, closes, i);
      }
    }
  }

  lemma CrossTruth(g: bool, w: nat, closes: seq<real>, i: int)
    ensures E.Truth(Cross(g, w), Closes(closes), i) == Compared(g, CloseAt(closes, i), E.Value(E.Sma(w, 0), Closes(closes), i))
  {}

  lemma {:induction false} EnvironmentStands(body: seq<Statement>, n: nat, closes: seq<real>)
    requires n <= |body| && SymbolsAfter(body, n).Ok?
    ensures EnvironmentAfter(body, n, closes).Some?
    ensures AllStand(SymbolsAfter(body, n).value, EnvironmentAfter(body, n, closes).value, closes)
  {
    hide ReadExpression, ValueOf, StandsFor, IsAlias, Reserved;
    if n > 0 {
      EnvironmentStands(body, n - 1, closes);
      ExpressionStands(body[n - 1].tokens[2..], SymbolsAfter(body, n - 1).value, EnvironmentAfter(body, n - 1, closes).value, closes);
    }
  }

  lemma ConditionReads(condition: Statement, body: Statement, call: seq<string>, symbols: Symbols)
    ensures Condition(condition, body, call, symbols).Ok? ==>
      condition.tokens != [] && Condition(condition, body, call, symbols) == ReadExpression(condition.tokens[1..], symbols)
  {
    hide ReadExpression, NonBlank;
  }

  lemma ConditionsStand(body: seq<Statement>, closes: seq<real>)
    requires Conditions(body).Ok?
    ensures Meaning(body, closes).Some?
    ensures StandsFor(Conditions(body).value.0, Meaning(body, closes).value.0, closes)
    ensures StandsFor(Conditions(body).value.1, Meaning(body, closes).value.1, closes)
  {
    hide ReadExpression, ValueOf, EnvironmentAfter, SymbolsAfter, StandsFor, AllStand, Condition;
    var n := Declared(body);
    EnvironmentStands(body, n, closes);
    ConditionReads(body[n], body[n + 1], ENTRY_CALL, SymbolsAfter(body, n).value);
    ConditionReads(body[n + 2], body[n + 3], CLOSE_CALL, SymbolsAfter(body, n).value);
    var symbols, env := SymbolsAfter(body, n).value, EnvironmentAfter(body, n, closes).value;
    ExpressionStands(body[n].tokens[1..], symbols, env, closes);
    ExpressionStands(body[n + 2].tokens[1..], symbols, env, closes);
  }

  /** Compilation preserves meaning: for every accepted program and every
      history, the compiled entry and exit predicates equal, at every bar, the
      evaluation of its declarations in order and then its `if` conditions. */
  lemma {:induction false} CompileMeans(source: string, closes: seq<real>)
    requires Compiled(source).Ok?
    ensures source != "" && Body(source).Ok? && |Body(source).value| > 0
    ensures var rule, meaning := Compiled(source).value, Meaning(Body(source).value[1..], closes);
      && meaning.Some? && meaning.value.0.Flag? && meaning.value.1.Flag?
      && (forall i :: meaning.value.0.holds(i) == E.Truth(rule.entry, Closes(closes), i))
      && (forall i :: meaning.value.1.holds(i) == E.Truth(rule.exit, Closes(closes), i))
  {
    hide Body, HeaderStatement, Conditions, Meaning, RuleOf, ProgramOk, Canonical, Lines, E.Truth;
    var p := Imported(source).value;
    AcceptedProgram(source);
    CanonicalRule(p);
    ConditionsStand(Body(source).value[1..], closes);
  }

  /** The compiled predicates read nothing of a history but its closes. */
  lemma RuleNeedsOnlyCloses(g: bool, w: nat, s: E.Series, i: int)
    ensures E.Truth(Cross(g, w), s, i) == E.Truth(Cross(g, w), Closes(s.closes), i)
  {}

  /** The same over the series the emitted package is evaluated on, and the
      package reads nothing of a bar but its close: both conditions, at every bar
      of a history, equal the evaluation of the program over its closes. */
  lemma {:induction false} CompileMeansOnBars(source: string, bars: seq<E.Bar>)
    requires Compiled(source).Ok?
    ensures source != "" && Body(source).Ok? && |Body(source).value| > 0
    ensures var rule, meaning := Compiled(source).value, Meaning(Body(source).value[1..], E.CloseOf(bars));
      && meaning.Some? && meaning.value.0.Flag? && meaning.value.1.Flag?
      && (forall i :: meaning.value.0.holds(i) == E.Truth(rule.entry, E.SeriesOf(bars, 1), i))
      && (forall i :: meaning.value.1.holds(i) == E.Truth(rule.exit, E.SeriesOf(bars, 1), i))
  {
    hide Body, HeaderStatement, Conditions, Meaning, RuleOf, ProgramOk, Canonical, Lines, E.Truth;
    var rule := Compiled(source).value;
    CompileMeans(source, E.CloseOf(bars));
    var w: nat := CompiledCross(source);
    assert E.SeriesOf(bars, 1).closes == E.CloseOf(bars);
    forall i
      ensures E.Truth(rule.entry, E.SeriesOf(bars, 1), i) == E.Truth(rule.entry, Closes(E.CloseOf(bars)), i)
      ensures E.Truth(rule.exit, E.SeriesOf(bars, 1), i) == E.Truth(rule.exit, Closes(E.CloseOf(bars)), i)
    {
      RuleNeedsOnlyCloses(true, w, E.SeriesOf(bars, 1), i);
      RuleNeedsOnlyCloses(false, w, E.SeriesOf(bars, 1), i);
    }
  }

  lemma CompiledCross(source: string) returns (w: nat)
    requires Compiled(source).Ok?
    ensures Compiled(source).value.entry == Cross(true, w) && Compiled(source).value.exit == Cross(false, w)
  {
    hide Imported, Canonical, Lines, RuleOf, Cross;
    w := RuleCross(Canonical(Imported(source).value));
  }

  lemma RuleCross(lines: seq<string>) returns (w: nat)
    requires RuleOf(lines).Ok?
    ensures RuleOf(lines).value.entry == Cross(true, w) && RuleOf(lines).value.exit == Cross(false, w)
  {
    hide HeaderOf, SignalOf, Flat, Natural, Cross;
    w := SignalOf(lines[2]).value.window;
  }

  /** Importing accepts exactly the programs that compile, up to the position size. */
  lemma {:induction false} CompilesExactly(source: string)
    requires EncodingOk(source) && Lines(source[..|source| - 1])[0] == VERSION_LINE
    ensures Compiled(source).Ok? <==> Imported(source).Ok? && ProgramOk(Imported(source).value) && 1 <= Natural(Imported(source).value.size) <= 100
  {
    hide Imported, RuleOf, EncodingOk, Lines, Canonical;
    assert source != "" by { EncodedNonempty(source); }
    if Imported(source).Ok? {
      AcceptedProgram(source);
      CanonicalRule(Imported(source).value);
    }
  }

  lemma EncodedNonempty(source: string)
    requires EncodingOk(source)
    ensures source != ""
  {}
}
