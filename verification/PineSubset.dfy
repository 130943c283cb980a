/** The imported script subset: declarations are expanded by prior-name
    substitution into one canonical eight-line program, which is then read as
    a rule of the package language. */
module PineSubset {
  import opened Exact
  import opened Numerals
  import opened PineLexer
  import E = Expression

  datatype Fault = UnsupportedToken | UnsupportedReference(name: string) | SmaArguments | SmaWindow | SignalExpression | Directive
                 | Incomplete | StrategyOptions | Declaration | AliasName(alias: string) | AliasLimit | OrderSemantics | SignalPair
                 | Encoding | Version | ExtraStatement | PositionSize
  datatype Result<+T> = Ok(value: T) | Err(fault: Fault) {
    predicate IsFailure() { Err? }
    function PropagateFailure<U>(): Result<U> requires Err? { Err(fault) }
    function Extract(): T requires Ok? { value }
  }

  // ----- expressions

  /** What an alias stands for. */
  datatype Symbol = CloseSymbol | IntSymbol(number: nat) | SmaSymbol(window: nat) | Comparison(greater: bool, length: nat)

  type Symbols = map<string, Symbol>

  /** An alias name: at most 64 characters and no dot. */
  predicate IsAlias(s: string) { 1 <= |s| <= 64 && Letter(s[0]) && forall i :: 0 <= i < |s| ==> Letter(s[i]) || Digit(s[i]) }

  function Atom(parts: seq<string>, symbols: Symbols): Result<Symbol>
    decreases |parts|
  {
    if parts == ["close"] then Ok(CloseSymbol)
    else if |parts| == 1 && IsNumber(parts[0]) && |parts[0]| <= 5 then Ok(IntSymbol(Natural(parts[0])))
    else if |parts| == 1 && IsAlias(parts[0]) then
      if parts[0] in symbols then Ok(symbols[parts[0]]) else Err(UnsupportedReference(parts[0]))
    else if |parts| == 6 && parts[..2] == ["ta.sma", "("] && parts[3] == "," && parts[5] == ")" then
      var source :- Atom(parts[2..3], symbols);
      var window :- Atom(parts[4..5], symbols);
      if source != CloseSymbol || !window.IntSymbol? then Err(SmaArguments)
      else if !(2 <= window.number <= 10000) then Err(SmaWindow)
      else Ok(SmaSymbol(window.number))
    else Err(SignalExpression)
  }

  predicate IsComparison(token: string) { token == ">" || token == "<" }

  /** The positions of the comparison signs. */
  function Comparisons(tokens: seq<string>): seq<nat>
  {
    if tokens == [] then []
    else
      var n := |tokens| - 1;
      Comparisons(tokens[..n]) + (if IsComparison(tokens[n]) then [n] else [])
  }

  lemma {:induction false} ComparisonsInside(tokens: seq<string>)
    ensures forall k :: 0 <= k < |Comparisons(tokens)| ==>
      Comparisons(tokens)[k] < |tokens| && IsComparison(tokens[Comparisons(tokens)[k]])
  {
    if tokens != [] {
      ComparisonsInside(tokens[..|tokens| - 1]);
    }
  }

  /** Only the close-versus-average comparison, or one atom. */
  function ReadExpression(tokens: seq<string>, symbols: Symbols): Result<Symbol>
  {
    var signs := Comparisons(tokens);
    ComparisonsInside(tokens);
    if signs == [] then Atom(tokens, symbols)
    else if |signs| == 1 then
      var left :- Atom(tokens[..signs[0]], symbols);
      var right :- Atom(tokens[signs[0] + 1..], symbols);
      if left == CloseSymbol && right.SmaSymbol? then Ok(Comparison(tokens[signs[0]] == ">", right.window)) else Err(SignalExpression)
    else Err(SignalExpression)
  }

  // ----- lines and statements

  function Lines(s: string): (r: seq<string>)
    ensures r != []
  {
    if s == "" then [""]
    else if s[0] == '\n' then [""] + Lines(s[1..])
    else
      var rest := Lines(s[1..]);
      [[s[0]] + rest[0]] + rest[1..]
  }

  /** A line without its comment; quotes protect the comment sign. */
  function Strip(raw: string, i: nat, quoted: bool): Result<string>
    requires i <= |raw|
    decreases |raw| - i
  {
    if i == |raw| then Ok(raw)
    else
      var q := if raw[i] == '"' then !quoted else quoted;
      if !q && i + 1 < |raw| && raw[i] == '/' && raw[i + 1] == '/' then
        var comment := raw[i + 2..];
        var start := RunEnd(comment, 0, BlankRun);
        if start < |comment| && comment[start] == '@' then Err(Directive) else Ok(raw[..i])
      else Strip(raw, i + 1, q)
  }

  function Quotes(s: string): nat
  {
    if s == "" then 0 else Quotes(s[..|s| - 1]) + (if s[|s| - 1] == '"' then 1 else 0)
  }

  /** A comment sign at a position that no open quote protects. */
  predicate CommentAt(raw: string, i: nat)
  {
    i + 1 < |raw| && raw[i] == '/' && raw[i + 1] == '/' && Quotes(raw[..i]) % 2 == 0
  }

  /** After the comment sign at a position and any blanks comes an `@`. */
  predicate DirectiveAt(raw: string, i: nat)
  {
    exists k :: i + 2 <= k < |raw| && raw[k] == '@' && forall j :: i + 2 <= j < k ==> Blank(raw[j])
  }

  /** The line up to its first unprotected comment sign, or whole without one;
      a refusal exactly when that first comment is a directive. */
  ghost predicate Stripped(raw: string, r: Result<string>)
  {
    match r
    case Ok(line) =>
      && line <= raw && (forall i: nat | i < |line| :: !CommentAt(raw, i))
      && (line == raw || (CommentAt(raw, |line|) && !DirectiveAt(raw, |line|)))
    case Err(fault) =>
      && fault == Directive
      && exists i: nat :: CommentAt(raw, i) && DirectiveAt(raw, i) && forall j: nat | j < i :: !CommentAt(raw, j)
  }

  lemma DirectiveStart(raw: string, i: nat)
    requires i + 2 <= |raw|
    ensures var comment := raw[i + 2..]; var start := RunEnd(comment, 0, BlankRun);
      DirectiveAt(raw, i) <==> start < |comment| && comment[start] == '@'
  {
    var comment := raw[i + 2..];
    var start := RunEnd(comment, 0, BlankRun);
    assert forall k :: 0 <= k < |comment| ==> comment[k] == raw[i + 2 + k];
    forall k | i + 2 <= k < |raw| && raw[k] == '@' && forall j :: i + 2 <= j < k ==> Blank(raw[j])
      ensures k == i + 2 + start
    {
      assert !Blank('@');
      assert forall j :: 0 <= j < k - i - 2 ==> Blank(comment[j]);
    }
    if start < |comment| && comment[start] == '@' {
      assert raw[i + 2 + start] == '@';
      forall j | i + 2 <= j < i + 2 + start
        ensures Blank(raw[j])
      {
        assert raw[j] == comment[j - i - 2];
      }
    }
  }

  lemma {:induction false} StripMeaning(raw: string, i: nat, quoted: bool)
    requires i <= |raw| && (quoted <==> Quotes(raw[..i]) % 2 == 1) && forall j: nat | j < i :: !CommentAt(raw, j)
    ensures Stripped(raw, Strip(raw, i, quoted))
    decreases |raw| - i
  {
    hide DirectiveAt;
    if i < |raw| {
      assert raw[..i + 1][..i] == raw[..i];
      if CommentAt(raw, i) {
        DirectiveStart(raw, i);
      } else {
        StripMeaning(raw, i + 1, if raw[i] == '"' then !quoted else quoted);
      }
    }
  }

  /** A stripped line stays as it is. */
  lemma StripIdempotent(raw: string)
    requires Strip(raw, 0, false).Ok?
    ensures var line := Strip(raw, 0, false).value; Strip(line, 0, false) == Ok(line)
  {
    StripMeaning(raw, 0, false);
    var line := Strip(raw, 0, false).value;
    StripMeaning(line, 0, false);
    forall i: nat
      ensures !CommentAt(line, i)
    {
      if i < |line| {
        assert line[..i] == raw[..i];
        assert !CommentAt(raw, i);
      }
    }
  }

  datatype Statement = Statement(indent: string, tokens: seq<string>)

  function StatementOf(raw: string): Result<Option<Statement>>
  {
    var line :- Strip(raw, 0, false);
    var start := RunEnd(line, 0, BlankRun);
    if start == |line| then Ok(None)
    else
      var tokens := TokensOf(line);
      if tokens.None? then Err(UnsupportedToken) else Ok(Some(Statement(line[..start], tokens.value)))
  }

  function StatementsOf(lines: seq<string>): Result<seq<Statement>>
  {
    if lines == [] then Ok([])
    else
      var front :- StatementsOf(lines[..|lines| - 1]);
      var last :- StatementOf(lines[|lines| - 1]);
      Ok(if last.None? then front else front + [last.value])
  }

  // ----- the canonical program

  function Setting(name: string, value: string): seq<string> { [",", " ", name, "=", value] }

  function HeaderPieces(title: string, size: string): seq<string>
  {
    ["strategy", "(", title] + Setting("overlay", "false") + Setting("pyramiding", "0") + Setting("process_orders_on_close", "false")
      + Setting("calc_on_every_tick", "false") + Setting("default_qty_type", "strategy.percent_of_equity")
      + Setting("default_qty_value", size) + [")"]
  }

  const HEADER_LENGTH := 34

  /** The title and the size of a header line that has exactly the supported options. */
  function HeaderOf(line: string): Option<(string, string)>
  {
    var p := Pieces(line);
    if p.Some? && |p.value| == HEADER_LENGTH && IsTitle(p.value[2]) && IsNumber(p.value[HEADER_LENGTH - 2])
       && p.value == HeaderPieces(p.value[2], p.value[HEADER_LENGTH - 2])
    then Some((p.value[2], p.value[HEADER_LENGTH - 2])) else None
  }

  function SignalPieces(name: string, sign: string, window: string): seq<string>
  {
    [name, " ", "=", " ", "close", " ", sign, " ", "ta.sma", "(", "close", ",", " ", window, ")"]
  }

  datatype Signal = Signal(name: string, greater: bool, window: nat)

  function SignalOf(line: string): Option<Signal>
  {
    var p := Pieces(line);
    if p.Some? && |p.value| == 15 && p.value == SignalPieces(p.value[0], p.value[6], p.value[13])
       && (p.value[0] == "entrySignal" || p.value[0] == "exitSignal") && IsComparison(p.value[6]) && IsNumber(p.value[13])
    then Some(Signal(p.value[0], p.value[6] == ">", Natural(p.value[13]))) else None
  }

  const IF_ENTRY := ["if", " ", "entrySignal"]
  const IF_EXIT := ["if", " ", "exitSignal"]
  const ENTRY_CALL := ["strategy.entry", "(", "\"L\"", ",", " ", "strategy.long", ")"]
  const CLOSE_CALL := ["strategy.close", "(", "\"L\"", ")"]
  const INDENT := "    "
  const VERSION_LINE := "//@version=5"

  datatype Program = Program(title: string, size: string, window: nat)

  /** The canonical eight lines, each written from its pieces. */
  function CanonicalPieces(p: Program): (r: seq<seq<string>>)
    ensures |r| == 7
  {
    [HeaderPieces(p.title, p.size), SignalPieces("entrySignal", ">", Digits(p.window)), SignalPieces("exitSignal", "<", Digits(p.window)),
     IF_ENTRY, [INDENT] + ENTRY_CALL, IF_EXIT, [INDENT] + CLOSE_CALL]
  }

  function Canonical(p: Program): (r: seq<string>)
    ensures |r| == 8
  {
    [VERSION_LINE] + seq(7, k requires 0 <= k < 7 => Flat(CanonicalPieces(p)[k]))
  }

  // ----- the import

  // The names no alias may take: built-in series and namespaces, types and keywords.

  predicate ReservedSeries(s: string)
  {
    s == "_" || s == "close" || s == "open" || s == "high" || s == "low" || s == "volume"
    || s == "time" || s == "time_close" || s == "bar_index" || s == "barstate" || s == "ta" || s == "strategy"
    || s == "input" || s == "math" || s == "syminfo"
  }

  predicate ReservedType(s: string)
  {
    s == "timeframe" || s == "request" || s == "na" || s == "true" || s == "false" || s == "var"
    || s == "varip" || s == "const" || s == "int" || s == "float" || s == "bool" || s == "string"
    || s == "color" || s == "if" || s == "else" || s == "for"
  }

  predicate ReservedKeyword(s: string)
  {
    s == "while" || s == "switch" || s == "break" || s == "continue" || s == "return" || s == "import"
    || s == "export" || s == "method" || s == "type" || s == "array" || s == "matrix" || s == "map"
    || s == "and" || s == "or" || s == "not"
  }

  predicate ReservedLater(s: string)
  {
    s == "catch" || s == "class" || s == "do" || s == "ellipse" || s == "in" || s == "is"
    || s == "polygon" || s == "range" || s == "struct" || s == "text" || s == "throw" || s == "try"
  }

  predicate Reserved(s: string) { ReservedSeries(s) || ReservedType(s) || ReservedKeyword(s) || ReservedLater(s) }

  const MAX_ALIASES := 64

  predicate IsIf(s: Statement) { s.tokens != [] && s.tokens[0] == "if" }

  /** How many statements come before the first condition. */
  function Declared(statements: seq<Statement>): (n: nat)
    ensures n <= |statements|
    ensures forall k :: 0 <= k < n ==> !IsIf(statements[k])
    ensures n < |statements| ==> IsIf(statements[n])
  {
    if statements == [] || IsIf(statements[0]) then 0 else 1 + Declared(statements[1..])
  }

  function Declare(s: Statement, symbols: Symbols): Result<Symbols>
  {
    if s.indent != "" || |s.tokens| < 3 || s.tokens[1] != "=" || !IsAlias(s.tokens[0]) then Err(Declaration)
    else if Reserved(s.tokens[0]) || s.tokens[0] in symbols then Err(AliasName(s.tokens[0]))
    else if |symbols| >= MAX_ALIASES then Err(AliasLimit)
    else
      var value :- ReadExpression(s.tokens[2..], symbols);
      Ok(symbols[s.tokens[0] := value])
  }

  /** The symbols after `n` declarations. */
  function SymbolsAfter(statements: seq<Statement>, n: nat): Result<Symbols>
    requires n <= |statements|
  {
    if n == 0 then Ok(map[]) else
    var symbols :- SymbolsAfter(statements, n - 1);
    Declare(statements[n - 1], symbols)
  }

  function Condition(condition: Statement, body: Statement, call: seq<string>, symbols: Symbols): Result<Symbol>
  {
    if condition.indent != "" || !IsIf(condition) || !(body.indent == INDENT || body.indent == "\t") || body.tokens != NonBlank(call)
    then Err(OrderSemantics)
    else ReadExpression(condition.tokens[1..], symbols)
  }

  /** The title and the size of the header statement. */
  function HeaderStatement(s: Statement): Result<(string, string)>
  {
    if s.indent != "" || |s.tokens| < 4 then Err(StrategyOptions)
    else
      var title, size := s.tokens[2], s.tokens[|s.tokens| - 2];
      var canonical := Flat(HeaderPieces(title, size));
      var tokens := TokensOf(canonical);
      if tokens.None? then Err(UnsupportedToken)
      else if s.tokens != tokens.value || HeaderOf(canonical).None? then Err(StrategyOptions)
      else Ok((title, size))
  }

  /** The entry and exit conditions after the declarations of a program's body. */
  function Conditions(body: seq<Statement>): Result<(Symbol, Symbol)>
  {
    var n := Declared(body);
    var symbols :- SymbolsAfter(body, n);
    if |body| - n != 4 then Err(OrderSemantics) else
    var entry :- Condition(body[n], body[n + 1], ENTRY_CALL, symbols);
    var exit :- Condition(body[n + 2], body[n + 3], CLOSE_CALL, symbols);
    Ok((entry, exit))
  }

  function Body(source: string): Result<seq<Statement>>
    requires source != ""
  {
    StatementsOf(Lines(source[..|source| - 1])[1..])
  }

  function Imported(source: string): Result<Program>
    requires source != ""
  {
    var statements :- Body(source);
    if |statements| < 5 then Err(Incomplete) else
    var (title, size) :- HeaderStatement(statements[0]);
    var (entry, exit) :- Conditions(statements[1..]);
    if !entry.Comparison? || !entry.greater || !exit.Comparison? || exit.greater || entry.length != exit.length then Err(SignalPair)
    else Ok(Program(title, size, entry.length))
  }

  // ----- the rule

  datatype Rule = Rule(entry: E.Node, exit: E.Node, percent: nat)

  function Cross(greater: bool, window: nat): E.Node { E.Compare(greater, E.CloseAt(0), E.Sma(window, 0)) }

  /** Read eight lines as a rule. */
  function RuleOf(lines: seq<string>): Result<Rule>
  {
    if |lines| < 8 then Err(Incomplete)
    else if |lines| > 8 then Err(ExtraStatement)
    else if HeaderOf(lines[1]).None? then Err(StrategyOptions)
    else
      var percent := Natural(HeaderOf(lines[1]).value.1);
      if !(1 <= percent <= 100) then Err(PositionSize) else
      var entry, exit := SignalOf(lines[2]), SignalOf(lines[3]);
      if entry.None? || entry.value.name != "entrySignal" then Err(SignalExpression)
      else if !(2 <= entry.value.window <= 10000) then Err(SmaWindow)
      else if exit.None? || exit.value.name != "exitSignal" then Err(SignalExpression)
      else if !(2 <= exit.value.window <= 10000) then Err(SmaWindow)
      else if !entry.value.greater || exit.value.greater || entry.value.window != exit.value.window then Err(SignalPair)
      else if lines[4..] != [Flat(IF_ENTRY), Flat([INDENT] + ENTRY_CALL), Flat(IF_EXIT), Flat([INDENT] + CLOSE_CALL)] then Err(OrderSemantics)
      else Ok(Rule(Cross(true, entry.value.window), Cross(false, exit.value.window), percent))
  }

  predicate Separator(c: char)
  {
    c in ['\U{0B}', '\U{0C}', '\U{1C}', '\U{1D}', '\U{1E}', '\U{85}', '\U{2028}', '\U{2029}']
  }

  predicate EncodingOk(source: string)
  {
    && source != "" && source[0] != '\U{FEFF}' && '\r' !in source && source[|source| - 1] == '\n'
    && forall i :: 0 <= i < |source| ==> !Separator(source[i])
  }

  /** Compile under the import grammar. */
  function Compiled(source: string): Result<Rule>
  {
    if !EncodingOk(source) then Err(Encoding)
    else if Lines(source[..|source| - 1])[0] != VERSION_LINE then Err(Version)
    else
      var program :- Imported(source);
      RuleOf(Canonical(program))
  }

  // ----- the program's loops

  method StripComment(raw: string) returns (r: Result<string>)
    ensures r == Strip(raw, 0, false) && Stripped(raw, r)
  {
    StripMeaning(raw, 0, false);
    hide Stripped;
    var quoted := false;
    for i := 0 to |raw|
      invariant Strip(raw, 0, false) == Strip(raw, i, quoted)
    {
      if raw[i] == '"' {
        quoted := !quoted;
      }
      if !quoted && i + 1 < |raw| && raw[i] == '/' && raw[i + 1] == '/' {
        var comment := raw[i + 2..];
        var start := RunEnd(comment, 0, BlankRun);
        if start < |comment| && comment[start] == '@' {
          return Err(Directive);
        }
        return Ok(raw[..i]);
      }
    }
    return Ok(raw);
  }

  lemma {:induction false} StatementsFail(lines: seq<string>, n: nat)
    requires n <= |lines| && StatementsOf(lines[..n]).Err?
    ensures StatementsOf(lines) == StatementsOf(lines[..n])
    decreases |lines|
  {
    if n == |lines| {
      assert lines[..n] == lines;
    } else {
      assert lines[..|lines| - 1][..n] == lines[..n];
      StatementsFail(lines[..|lines| - 1], n);
    }
  }

  method ReadStatements(lines: seq<string>) returns (r: Result<seq<Statement>>)
    ensures r == StatementsOf(lines)
  {
    var statements: seq<Statement> := [];
    for i := 0 to |lines|
      invariant StatementsOf(lines[..i]) == Ok(statements)
    {
      assert lines[..i + 1][..i] == lines[..i];
      ghost var here := StatementOf(lines[i]);
      var line := StripComment(lines[i]);
      if line.Err? {
        StatementsFail(lines, i + 1);
        return Err(line.fault);
      }
      var start := RunEnd(line.value, 0, BlankRun);
      if start != |line.value| {
        var tokens := Tokens(line.value);
        if tokens.None? {
          StatementsFail(lines, i + 1);
          return Err(UnsupportedToken);
        }
        statements := statements + [Statement(line.value[..start], tokens.value)];
      }
    }
    assert lines[..|lines|] == lines;
    return Ok(statements);
  }

  lemma {:induction false} SymbolsFail(statements: seq<Statement>, i: nat, n: nat)
    requires i <= n <= |statements| && SymbolsAfter(statements, i).Err?
    ensures SymbolsAfter(statements, n) == SymbolsAfter(statements, i)
  {
    hide Declare;
    if i < n {
      SymbolsFail(statements, i, n - 1);
    }
  }

  /** Pop declarations until the first condition. */
  method ReadDeclarations(body: seq<Statement>) returns (r: Result<(nat, Symbols)>)
    ensures r.Ok? ==> r.value.0 == Declared(body) && SymbolsAfter(body, Declared(body)) == Ok(r.value.1)
    ensures r.Err? ==> SymbolsAfter(body, Declared(body)) == Err(r.fault)
  {
    hide ReadExpression, Reserved;
    var symbols: Symbols, n: nat := map[], 0;
    while n < |body| && !IsIf(body[n])
      invariant n <= Declared(body) && SymbolsAfter(body, n) == Ok(symbols)
    {
      var s := body[n];
      if s.indent != "" || |s.tokens| < 3 || s.tokens[1] != "=" || !IsAlias(s.tokens[0]) {
        SymbolsFail(body, n + 1, Declared(body));
        return Err(Declaration);
      }
      var name := s.tokens[0];
      if Reserved(name) || name in symbols {
        SymbolsFail(body, n + 1, Declared(body));
        return Err(AliasName(name));
      }
      if |symbols| >= 64 {
        SymbolsFail(body, n + 1, Declared(body));
        return Err(AliasLimit);
      }
      var value := ReadExpression(s.tokens[2..], symbols);
      if value.Err? {
        SymbolsFail(body, n + 1, Declared(body));
        return Err(value.fault);
      }
      symbols := symbols[name := value.value];
      n := n + 1;
    }
    return Ok((n, symbols));
  }

  /** A condition with its one indented call. */
  method ReadCondition(condition: Statement, body: Statement, call: seq<string>, symbols: Symbols) returns (r: Result<Symbol>)
    ensures r == Condition(condition, body, call, symbols)
  {
    hide ReadExpression, NonBlank;
    if condition.indent != "" || condition.tokens == [] || condition.tokens[0] != "if" {
      return Err(OrderSemantics);
    }
    if body.indent !in {"    ", "\t"} || body.tokens != NonBlank(call) {
      return Err(OrderSemantics);
    }
    return ReadExpression(condition.tokens[1..], symbols);
  }

  /** Normalize a source to its canonical eight lines. */
  method ImportLines(source: string) returns (r: Result<seq<string>>)
    requires source != ""
    ensures match Imported(source) case Ok(p) => r == Ok(Canonical(p)) case Err(fault) => r == Err(fault)
  {
    hide Lines, StatementsOf, HeaderStatement, Condition, Canonical, SymbolsAfter;
    var statements := ReadStatements(Lines(source[..|source| - 1])[1..]);
    if statements.Err? {
      return Err(statements.fault);
    }
    if |statements.value| < 5 {
      return Err(Incomplete);
    }
    var header := HeaderStatement(statements.value[0]);
    if header.Err? {
      return Err(header.fault);
    }
    var body := statements.value[1..];
    var declared := ReadDeclarations(body);
    if declared.Err? {
      return Err(declared.fault);
    }
    var (n, symbols) := declared.value;
    if |body| - n != 4 {
      return Err(OrderSemantics);
    }
    var entry := ReadCondition(body[n], body[n + 1], ENTRY_CALL, symbols);
    if entry.Err? {
      return Err(entry.fault);
    }
    var exit := ReadCondition(body[n + 2], body[n + 3], CLOSE_CALL, symbols);
    if exit.Err? {
      return Err(exit.fault);
    }
    if !entry.value.Comparison? || !entry.value.greater || !exit.value.Comparison? || exit.value.greater
       || entry.value.length != exit.value.length {
      return Err(SignalPair);
    }
    return Ok(Canonical(Program(header.value.0, header.value.1, entry.value.length)));
  }

  method CheckEncoding(source: string) returns (ok: bool)
    ensures ok <==> EncodingOk(source)
  {
    if source == "" || source[0] == '\U{FEFF}' || source[|source| - 1] != '\n' {
      return false;
    }
    for i := 0 to |source|
      invariant forall k :: 0 <= k < i ==> source[k] != '\r' && !Separator(source[k])
    {
      if source[i] == '\r' || source[i] == '\U{85}' || source[i] == '\U{2028}' || source[i] == '\U{2029}'
         || '\U{0B}' <= source[i] <= '\U{0C}' || '\U{1C}' <= source[i] <= '\U{1E}' {
        return false;
      }
    }
    return true;
  }

  /** One signal line of the given name with a window in range. */
  method ReadSignal(line: string, name: string) returns (r: Result<Signal>)
    ensures r.Ok? <==> SignalOf(line).Some? && SignalOf(line).value.name == name && 2 <= SignalOf(line).value.window <= 10000
    ensures r.Ok? ==> r.value == SignalOf(line).value
    ensures r.Err? ==> r.fault == if SignalOf(line).None? || SignalOf(line).value.name != name then SignalExpression else SmaWindow
  {
    hide SignalOf;
    var signal := SignalOf(line);
    if signal.None? || signal.value.name != name {
      return Err(SignalExpression);
    }
    if signal.value.window < 2 || signal.value.window > 10000 {
      return Err(SmaWindow);
    }
    return Ok(signal.value);
  }

  /** Read eight lines as a rule. */
  method ReadRule(lines: seq<string>) returns (r: Result<Rule>)
    ensures r == RuleOf(lines)
  {
    hide SignalOf, Flat, Natural, HeaderPieces;
    if |lines| != 8 {
      return Err(if |lines| < 8 then Incomplete else ExtraStatement);
    }
    var header := HeaderOf(lines[1]);
    if header.None? {
      return Err(StrategyOptions);
    }
    var percent := Natural(header.value.1);
    if percent < 1 || percent > 100 {
      return Err(PositionSize);
    }
    var entry := ReadSignal(lines[2], "entrySignal");
    if entry.Err? {
      return Err(entry.fault);
    }
    var exit := ReadSignal(lines[3], "exitSignal");
    if exit.Err? {
      return Err(exit.fault);
    }
    if !entry.value.greater || exit.value.greater || entry.value.window != exit.value.window {
      return Err(SignalPair);
    }
    if lines[4..] != [Flat(IF_ENTRY), Flat([INDENT] + ENTRY_CALL), Flat(IF_EXIT), Flat([INDENT] + CLOSE_CALL)] {
      return Err(OrderSemantics);
    }
    return Ok(Rule(E.Compare(true, E.CloseAt(0), E.Sma(entry.value.window, 0)), E.Compare(false, E.CloseAt(0), E.Sma(exit.value.window, 0)),
                   percent));
  }

  /** Compile a decoded source under the import grammar. */
  method CompilePine(source: string) returns (r: Result<Rule>)
    ensures r == Compiled(source)
  {
    hide EncodingOk, Lines, Imported, RuleOf, Canonical;
    var encoded := CheckEncoding(source);
    if !encoded {
      return Err(Encoding);
    }
    EncodedEnds(source);
    if Lines(source[..|source| - 1])[0] != "//@version=5" {
      return Err(Version);
    }
    var lines := ImportLines(source);
    if lines.Err? {
      return Err(lines.fault);
    }
    r := ReadRule(lines.value);
  }

  lemma EncodedEnds(source: string)
    requires EncodingOk(source)
    ensures source != ""
  {}
}
