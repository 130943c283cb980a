/** The canonical eight lines: they lex back to the pieces they are written
    from, they are read as the rule of their window, and importing them again
    gives the same eight lines. */
module PineCanonical {
  import opened Exact
  import opened Numerals
  import opened PineLexer
  import opened PineSubset

  // ----- the pieces of every canonical line are safe to write next to each other

  lemma NumeralIsNumber(n: nat)
    ensures IsNumber(Digits(n)) && Natural(Digits(n)) == n
  {
    NaturalOfDigits(n);
  }

  // The names the canonical program is written with.

  lemma OptionNames()
    ensures IsName("strategy") && IsName("overlay") && IsName("false") && IsName("pyramiding")
  {}

  lemma OrderNames()
    ensures IsName("process_orders_on_close") && IsName("calc_on_every_tick")
  {}

  lemma SizeNames()
    ensures IsName("default_qty_type") && IsName("default_qty_value")
  {}

  lemma SizeValue()
    ensures IsName("strategy.percent_of_equity")
  {}

  lemma SignalNames()
    ensures IsName("entrySignal") && IsName("exitSignal") && IsName("close") && IsName("ta.sma") && IsName("if")
  {}

  lemma CallNames()
    ensures IsName("strategy.entry") && IsName("strategy.long") && IsName("strategy.close")
  {}

  lemma SettingSafe(name: string, value: string)
    requires IsName(name) && (IsName(value) || IsNumber(value))
    ensures Safe(Setting(name, value))
  {
    hide IsName, IsNumber;
    NameStarts(name);
    if IsNumber(value) { NumberStarts(value); } else { NameStarts(value); }
  }

  lemma NameStarts(p: string)
    requires IsName(p)
    ensures p != "" && Letter(p[0]) && !Digit(p[0]) && !Blank(p[0]) && p[0] != '.'
  {}

  lemma NumberStarts(p: string)
    requires IsNumber(p)
    ensures p != "" && Digit(p[0]) && !Letter(p[0]) && !Blank(p[0]) && p[0] != '.'
  {}

  lemma SignalSafe(name: string, sign: string, window: string)
    requires IsName(name) && IsComparison(sign) && IsNumber(window)
    ensures Safe(SignalPieces(name, sign, window))
  {
    SignalNames();
    NameStarts(name);
    NumberStarts(window);
    hide IsName, IsNumber;
  }

  lemma HeaderSafe(title: string, size: string)
    requires IsTitle(title) && IsNumber(size)
    ensures Safe(HeaderPieces(title, size)) && |HeaderPieces(title, size)| == HEADER_LENGTH
  {
    OptionNames();
    OrderNames();
    SizeNames();
    SizeValue();
    SettingSafe("overlay", "false");
    assert IsNumber("0");
    SettingSafe("pyramiding", "0");
    SettingSafe("process_orders_on_close", "false");
    SettingSafe("calc_on_every_tick", "false");
    SettingSafe("default_qty_type", "strategy.percent_of_equity");
    SettingSafe("default_qty_value", size);
    hide Safe, IsName, IsNumber, IsTitle;
    var a := ["strategy", "(", title];
    assert Safe(a) by { OpeningSafe(title); }
    AppendSetting(a, "overlay", "false");
    var b := a + Setting("overlay", "false");
    AppendSetting(b, "pyramiding", "0");
    var c := b + Setting("pyramiding", "0");
    AppendSetting(c, "process_orders_on_close", "false");
    var d := c + Setting("process_orders_on_close", "false");
    AppendSetting(d, "calc_on_every_tick", "false");
    var e := d + Setting("calc_on_every_tick", "false");
    AppendSetting(e, "default_qty_type", "strategy.percent_of_equity");
    var f := e + Setting("default_qty_type", "strategy.percent_of_equity");
    AppendSetting(f, "default_qty_value", size);
    var g := f + Setting("default_qty_value", size);
    AppendClose(g);
    assert HeaderPieces(title, size) == g + [")"];
  }

  lemma OpeningSafe(title: string)
    requires IsTitle(title) && IsName("strategy")
    ensures Safe(["strategy", "(", title])
  {
    hide IsName;
    NameStarts("strategy");
  }

  /** Anything but a blank can be followed by a comma. */
  lemma AppendSetting(a: seq<string>, name: string, value: string)
    requires Safe(a) && a != [] && Safe(Setting(name, value))
    ensures Safe(a + Setting(name, value))
  {
    hide IsName, IsNumber, IsTitle;
    assert Apart(a[|a| - 1], ",");
    SafeConcat(a, Setting(name, value));
  }

  lemma AppendClose(a: seq<string>)
    requires Safe(a) && a != []
    ensures Safe(a + [")"])
  {
    hide IsName, IsNumber, IsTitle;
    assert Safe([")"]);
    assert Apart(a[|a| - 1], ")");
    SafeConcat(a, [")"]);
  }

  lemma IfSafe(name: string)
    requires IsName(name)
    ensures Safe(["if", " ", name])
  {
    SignalNames();
    NameStarts("if");
    NameStarts(name);
    hide IsName, IsNumber, IsTitle;
  }

  lemma EntryCallSafe()
    ensures Safe(ENTRY_CALL) && Safe([INDENT] + ENTRY_CALL)
  {
    CallNames();
    NameStarts("strategy.entry");
    NameStarts("strategy.long");
    assert IsTitle("\"L\"");
    hide IsName, IsNumber, IsTitle;
    assert Safe(ENTRY_CALL);
    IndentSafe(ENTRY_CALL);
  }

  lemma CloseCallSafe()
    ensures Safe(CLOSE_CALL) && Safe([INDENT] + CLOSE_CALL)
  {
    CallNames();
    NameStarts("strategy.close");
    assert IsTitle("\"L\"");
    hide IsName, IsNumber, IsTitle;
    assert Safe(CLOSE_CALL);
    IndentSafe(CLOSE_CALL);
  }

  lemma IndentSafe(call: seq<string>)
    requires Safe(call) && call != [] && !Blank(call[0][0])
    ensures Safe([INDENT] + call)
  {
    hide IsName, IsNumber, IsTitle;
    assert IsBlank(INDENT);
    assert Safe([INDENT]);
    SafeConcat([INDENT], call);
  }

  // ----- reading the canonical lines

  lemma HeaderReads(title: string, size: string)
    requires IsTitle(title) && IsNumber(size)
    ensures HeaderOf(Flat(HeaderPieces(title, size))) == Some((title, size))
  {
    HeaderSafe(title, size);
    RoundTrip(HeaderPieces(title, size));
    hide IsTitle, IsNumber, Pieces, Safe;
  }

  /** The header pattern matches exactly the lines with the supported options. */
  lemma HeaderExactly(line: string)
    requires HeaderOf(line).Some?
    ensures var (title, size) := HeaderOf(line).value; IsTitle(title) && IsNumber(size) && line == Flat(HeaderPieces(title, size))
  {
    Lossless(line);
    hide Flat, HeaderPieces, Pieces;
  }

  lemma SignalReads(name: string, sign: string, window: nat)
    requires (name == "entrySignal" || name == "exitSignal") && IsComparison(sign)
    ensures SignalOf(Flat(SignalPieces(name, sign, Digits(window)))) == Some(Signal(name, sign == ">", window))
  {
    SignalNames();
    NumeralIsNumber(window);
    SignalSafe(name, sign, Digits(window));
    RoundTrip(SignalPieces(name, sign, Digits(window)));
    hide IsName, Pieces, Safe, Natural, Digits, Flat;
  }

  ghost predicate ProgramOk(p: Program) { IsTitle(p.title) && IsNumber(p.size) && 2 <= p.window <= 10000 }

  /** The canonical lines are always readable, and are the rule of their window:
      only the position size can still be refused. */
  lemma CanonicalRule(p: Program)
    requires ProgramOk(p)
    ensures RuleOf(Canonical(p)) ==
      if 1 <= Natural(p.size) <= 100 then Ok(Rule(Cross(true, p.window), Cross(false, p.window), Natural(p.size))) else Err(PositionSize)
  {
    hide HeaderOf, SignalOf, Flat, HeaderPieces, SignalPieces, IsTitle, IsNumber, Digits, Natural, Canonical, CanonicalPieces;
    HeaderReads(p.title, p.size);
    SignalReads("entrySignal", ">", p.window);
    SignalReads("exitSignal", "<", p.window);
    CanonicalParts(p);
    NumeralOf(p.size);
  }

  lemma NumeralOf(s: string)
    requires IsNumber(s)
    ensures IsNumeral(s)
  {}

  lemma CanonicalParts(p: Program)
    ensures var c := Canonical(p);
      && c[1] == Flat(HeaderPieces(p.title, p.size))
      && c[2] == Flat(SignalPieces("entrySignal", ">", Digits(p.window))) && c[3] == Flat(SignalPieces("exitSignal", "<", Digits(p.window)))
      && c[4..] == [Flat(IF_ENTRY), Flat([INDENT] + ENTRY_CALL), Flat(IF_EXIT), Flat([INDENT] + CLOSE_CALL)]
  {
    hide Flat, HeaderPieces, SignalPieces, Digits;
  }

  // ----- every accepted program has a canonical form

  lemma {:induction false} HeaderTokens(title: string, size: string)
    requires IsTitle(title) && IsNumber(size)
    ensures var t := NonBlank(HeaderPieces(title, size)); |t| >= 4 && t[2] == title && t[|t| - 2] == size
  {
    NumberStarts(size);
    hide IsNumber;
    var open, last := ["strategy", "(", title], Setting("default_qty_value", size) + [")"];
    var middle := Setting("overlay", "false") + Setting("pyramiding", "0") + Setting("process_orders_on_close", "false")
      + Setting("calc_on_every_tick", "false") + Setting("default_qty_type", "strategy.percent_of_equity");
    assert HeaderPieces(title, size) == open + middle + last;
    NonBlankConcat(open + middle, last);
    NonBlankConcat(open, middle);
    assert NonBlank(open) == open by { NonBlankAll(open); }
    assert NonBlank(last) == [",", "default_qty_value", "=", size, ")"] by { SizeTokens(size); }
  }

  lemma {:induction false} NonBlankAll(p: seq<string>)
    requires forall i: nat :: i < |p| ==> p[i] != "" && !Blank(p[i][0])
    ensures NonBlank(p) == p
  {
    if p != [] {
      NonBlankAll(p[1..]);
      assert [p[0]] + p[1..] == p;
    }
  }

  lemma SizeTokens(size: string)
    requires size != "" && !Blank(size[0])
    ensures NonBlank(Setting("default_qty_value", size) + [")"]) == [",", "default_qty_value", "=", size, ")"]
  {
    var tail := ["default_qty_value", "=", size, ")"];
    var p := Setting("default_qty_value", size) + [")"];
    assert p == [","] + ([" "] + tail);
    NonBlankConcat([","], [" "] + tail);
    NonBlankConcat([" "], tail);
    NonBlankAll([","]);
    NonBlankAll(tail);
    assert NonBlank([" "]) == [];
  }

  /** The title and size of an accepted header are a string literal and a number. */
  lemma HeaderAccepted(s: Statement)
    requires HeaderStatement(s).Ok?
    ensures IsTitle(HeaderStatement(s).value.0) && IsNumber(HeaderStatement(s).value.1)
  {
    var title, size := s.tokens[2], s.tokens[|s.tokens| - 2];
    var canonical := Flat(HeaderPieces(title, size));
    var (t, n) := HeaderOf(canonical).value;
    HeaderTokens(t, n);
    hide Flat, HeaderPieces, IsTitle, IsNumber;
  }

  ghost predicate Ranged(x: Symbol)
  {
    (x.SmaSymbol? ==> 2 <= x.window <= 10000) && (x.Comparison? ==> 2 <= x.length <= 10000)
  }

  lemma AtomRanged(parts: seq<string>, symbols: Symbols)
    requires forall name <- symbols :: Ranged(symbols[name])
    ensures Atom(parts, symbols).Ok? ==> Ranged(Atom(parts, symbols).value)
  {
    hide IsAlias, IsNumber, Natural;
  }

  lemma ExpressionRanged(tokens: seq<string>, symbols: Symbols)
    requires forall name <- symbols :: Ranged(symbols[name])
    ensures ReadExpression(tokens, symbols).Ok? ==> Ranged(ReadExpression(tokens, symbols).value)
  {
    hide Atom;
    AtomRanged(tokens, symbols);
    ComparisonsInside(tokens);
    var signs := Comparisons(tokens);
    if |signs| == 1 {
      AtomRanged(tokens[signs[0] + 1..], symbols);
    }
  }

  lemma {:induction false} SymbolsRanged(body: seq<Statement>, n: nat)
    requires n <= |body| && SymbolsAfter(body, n).Ok?
    ensures forall name <- SymbolsAfter(body, n).value :: Ranged(SymbolsAfter(body, n).value[name])
  {
    hide ReadExpression, Ranged;
    if n > 0 {
      SymbolsRanged(body, n - 1);
      ExpressionRanged(body[n - 1].tokens[2..], SymbolsAfter(body, n - 1).value);
    }
  }

  lemma {:induction false} AcceptedProgram(source: string)
    requires source != "" && Imported(source).Ok?
    ensures ProgramOk(Imported(source).value)
  {
    hide HeaderStatement, ReadExpression, SymbolsAfter, IsTitle, IsNumber, Body;
    var statements := Body(source).value;
    HeaderAccepted(statements[0]);
    var body := statements[1..];
    var n := Declared(body);
    SymbolsRanged(body, n);
    ExpressionRanged(body[n].tokens[1..], SymbolsAfter(body, n).value);
  }

  // ----- importing the canonical lines

  predicate Plain(s: string) { forall i :: 0 <= i < |s| ==> s[i] != '\n' && s[i] != '/' }

  lemma LexemePlain(p: string)
    requires Lexeme(p)
    ensures Plain(p)
  {
    forall i | 0 <= i < |p|
      ensures p[i] != '\n' && p[i] != '/'
    {
      assert IsName(p) ==> Continues(p, i);
    }
  }

  lemma {:induction false} FlatPlain(pieces: seq<string>)
    requires Safe(pieces)
    ensures Plain(Flat(pieces))
  {
    hide Lexeme, Apart;
    if pieces != [] {
      SafeTail(pieces);
      FlatPlain(pieces[1..]);
      assert Lexeme(pieces[0]);
      LexemePlain(pieces[0]);
    }
  }

  lemma {:induction false} StripPlain(raw: string, i: nat, quoted: bool)
    requires Plain(raw) && i <= |raw|
    ensures Strip(raw, i, quoted) == Ok(raw)
    decreases |raw| - i
  {
    if i < |raw| {
      StripPlain(raw, i + 1, if raw[i] == '"' then !quoted else quoted);
    }
  }

  /** The statement that a line written from these pieces holds. */
  function Written(pieces: seq<string>): Statement
    requires pieces != []
  {
    Statement(if pieces[0] == INDENT then INDENT else "", NonBlank(pieces))
  }

  ghost predicate Writable(pieces: seq<string>)
  {
    && Safe(pieces) && pieces != [] && pieces[0] != ""
    && if pieces[0] == INDENT then |pieces| > 1 else !Blank(pieces[0][0])
  }

  lemma StatementReads(pieces: seq<string>)
    requires Writable(pieces)
    ensures StatementOf(Flat(pieces)) == Ok(Some(Written(pieces)))
  {
    RoundTrip(pieces);
    FlatPlain(pieces);
    StripPlain(Flat(pieces), 0, false);
    Indentation(pieces);
    hide Safe, Pieces, NonBlank, Strip;
  }

  lemma Indentation(pieces: seq<string>)
    requires Writable(pieces)
    ensures RunEnd(Flat(pieces), 0, BlankRun) == if pieces[0] == INDENT then |INDENT| else 0
    ensures |Flat(pieces)| > (if pieces[0] == INDENT then |INDENT| else 0)
    ensures pieces[0] == INDENT ==> Flat(pieces)[..|INDENT|] == INDENT
  {
    if pieces[0] == INDENT {
      var rest := Flat(pieces[1..]);
      assert pieces[1] != "" && Apart(pieces[0], pieces[1]);
      assert rest[0] == pieces[1][0];
      RunEnds(INDENT, rest, 0, BlankRun);
    } else {
      assert Flat(pieces)[0] == pieces[0][0];
    }
  }

  /** Lines written one after the other. */
  function Text(lines: seq<string>): string
  {
    if lines == [] then "" else lines[0] + "\n" + Text(lines[1..])
  }

  lemma {:induction false} LinesStart(a: string, rest: string)
    requires forall i :: 0 <= i < |a| ==> a[i] != '\n'
    ensures Lines(a + "\n" + rest) == [a] + Lines(rest)
    ensures Lines(a) == [a]
  {
    var s := a + "\n" + rest;
    if a == "" {
      assert s[1..] == rest;
    } else {
      assert s[1..] == a[1..] + "\n" + rest;
      LinesStart(a[1..], rest);
      assert [a[0]] + a[1..] == a;
    }
  }

  /** Splitting a written text at its line ends gives the lines back. */
  lemma {:induction false} LinesOfText(lines: seq<string>)
    requires lines != [] && forall k: nat, i: nat :: k < |lines| && i < |lines[k]| ==> lines[k][i] != '\n'
    ensures Text(lines) != "" && Lines(Text(lines)[..|Text(lines)| - 1]) == lines
  {
    var rest := lines[1..];
    if rest == [] {
      LinesStart(lines[0], "");
      assert Text(lines)[..|Text(lines)| - 1] == lines[0];
      assert lines == [lines[0]];
    } else {
      LinesOfText(rest);
      var tail := Text(rest)[..|Text(rest)| - 1];
      assert Text(lines)[..|Text(lines)| - 1] == lines[0] + "\n" + tail;
      LinesStart(lines[0], tail);
      assert lines == [lines[0]] + rest;
    }
  }

  lemma StatementsAppend(lines: seq<string>, line: string, statements: seq<Statement>, s: Statement)
    requires StatementsOf(lines) == Ok(statements) && StatementOf(line) == Ok(Some(s))
    ensures StatementsOf(lines + [line]) == Ok(statements + [s])
  {
    assert (lines + [line])[..|lines|] == lines;
  }

  function CanonicalStatements(p: Program): (r: seq<Statement>)
    ensures |r| == 7
  {
    seq(7, k requires 0 <= k < 7 => if CanonicalPieces(p)[k] == [] then Statement("", []) else Written(CanonicalPieces(p)[k]))
  }

  /** Each canonical line is written from safe pieces. */
  lemma CanonicalWritable(p: Program, k: nat)
    requires ProgramOk(p) && k < 7
    ensures Writable(CanonicalPieces(p)[k])
  {
    SignalNames();
    NumeralIsNumber(p.window);
    hide IsName, IsTitle, IsNumber, Digits;
    match k
    case 0 => HeaderSafe(p.title, p.size); hide Safe;
    case 1 => SignalSafe("entrySignal", ">", Digits(p.window)); hide Safe;
    case 2 => SignalSafe("exitSignal", "<", Digits(p.window)); hide Safe;
    case 3 => IfSafe("entrySignal"); hide Safe;
    case 4 => EntryCallSafe(); hide Safe;
    case 5 => IfSafe("exitSignal"); hide Safe;
    case _ => CloseCallSafe(); hide Safe;
  }

  lemma {:induction false} StatementsRead(p: Program, n: nat)
    requires ProgramOk(p) && n <= 7
    ensures StatementsOf(Canonical(p)[1..n + 1]) == Ok(CanonicalStatements(p)[..n])
  {
    hide StatementOf, ProgramOk, CanonicalPieces, Flat, Writable, Written;
    if n == 0 {
      assert Canonical(p)[1..1] == [] && CanonicalStatements(p)[..0] == [];
    } else {
      StatementsRead(p, n - 1);
      CanonicalWritable(p, n - 1);
      StatementReads(CanonicalPieces(p)[n - 1]);
      WritableNonempty(CanonicalPieces(p)[n - 1]);
      StatementsAppend(Canonical(p)[1..n], Canonical(p)[n], CanonicalStatements(p)[..n - 1], CanonicalStatements(p)[n - 1]);
      assert Canonical(p)[1..n + 1] == Canonical(p)[1..n] + [Canonical(p)[n]];
      assert CanonicalStatements(p)[..n] == CanonicalStatements(p)[..n - 1] + [CanonicalStatements(p)[n - 1]];
    }
  }

  lemma WritableNonempty(pieces: seq<string>)
    requires Writable(pieces)
    ensures pieces != []
  {}

  lemma TokenThenBlank(x: string, rest: seq<string>)
    requires x != "" && !Blank(x[0])
    ensures NonBlank([x, " "] + rest) == [x] + NonBlank(rest)
  {
    var p := [x, " "] + rest;
    assert p[1..] == [" "] + rest;
    assert p[1..][1..] == rest;
  }

  lemma SignalTokens(name: string, sign: string, window: string)
    requires name != "" && !Blank(name[0]) && IsComparison(sign) && window != "" && !Blank(window[0])
    ensures NonBlank(SignalPieces(name, sign, window)) == [name, "="] + CrossTokens(sign, window)
  {
    hide NonBlank;
    TailTokens(window);
    var e := ["ta.sma", "(", "close"] + ([",", " "] + [window, ")"]);
    TokenThenBlank(sign, e);
    var d := [sign, " "] + e;
    TokenThenBlank("close", d);
    var c := ["close", " "] + d;
    TokenThenBlank("=", c);
    var b := ["=", " "] + c;
    TokenThenBlank(name, b);
    assert SignalPieces(name, sign, window) == [name, " "] + b by { PiecesOf(name, sign, window); }
  }

  lemma TailTokens(window: string)
    requires window != "" && !Blank(window[0])
    ensures NonBlank(["ta.sma", "(", "close"] + ([",", " "] + [window, ")"])) == ["ta.sma", "(", "close", ",", window, ")"]
  {
    var call, args := ["ta.sma", "(", "close"], [window, ")"];
    NonBlankAll(call);
    NonBlankAll(args);
    hide NonBlank;
    TokenThenBlank(",", args);
    NonBlankConcat(call, [",", " "] + args);
  }

  lemma PiecesOf(name: string, sign: string, window: string)
    ensures SignalPieces(name, sign, window) ==
      [name, " "] + (["=", " "] + (["close", " "] + ([sign, " "] + (["ta.sma", "(", "close"] + ([",", " "] + [window, ")"])))))
  {}

  /** The tokens of a close-versus-average comparison. */
  function CrossTokens(sign: string, window: string): seq<string> { ["close", sign, "ta.sma", "(", "close", ",", window, ")"] }

  lemma {:induction false} NoComparisons(tokens: seq<string>)
    requires forall i: nat :: i < |tokens| ==> !IsComparison(tokens[i])
    ensures Comparisons(tokens) == []
  {
    if tokens != [] {
      NoComparisons(tokens[..|tokens| - 1]);
    }
  }

  lemma {:induction false} ComparisonsConcat(a: seq<string>, b: seq<string>)
    requires forall i: nat :: i < |b| ==> !IsComparison(b[i])
    ensures Comparisons(a + b) == Comparisons(a)
  {
    if b == [] {
      assert a + b == a;
    } else {
      assert (a + b)[..|a + b| - 1] == a + b[..|b| - 1];
      ComparisonsConcat(a, b[..|b| - 1]);
    }
  }

  /** A written comparison reads as the comparison of its window, whatever the aliases. */
  lemma CrossReads(sign: string, window: nat, symbols: Symbols)
    requires IsComparison(sign) && 2 <= window <= 10000
    ensures ReadExpression(CrossTokens(sign, Digits(window)), symbols) == Ok(Comparison(sign == ">", window))
  {
    hide Comparisons, Atom, IsNumber, Digits, Natural;
    NumeralIsNumber(window);
    DigitsShort(window);
    CrossSigns(sign, Digits(window));
    AverageReads(Digits(window), symbols);
    var tokens := CrossTokens(sign, Digits(window));
    assert tokens[..1] == ["close"] && tokens[2..] == ["ta.sma", "(", "close", ",", Digits(window), ")"];
    CloseReads(symbols);
  }

  lemma CloseReads(symbols: Symbols)
    ensures Atom(["close"], symbols) == Ok(CloseSymbol)
  {}

  lemma CrossSigns(sign: string, d: string)
    requires IsComparison(sign) && IsNumber(d)
    ensures Comparisons(CrossTokens(sign, d)) == [1]
  {
    NumberStarts(d);
    hide IsNumber;
    var average := ["ta.sma", "(", "close", ",", d, ")"];
    assert CrossTokens(sign, d) == ["close", sign] + average;
    ComparisonsConcat(["close", sign], average);
    assert ["close", sign][..1] == ["close"] && ["close"][..0] == [];
  }

  lemma AverageReads(d: string, symbols: Symbols)
    requires IsNumber(d) && |d| <= 5 && 2 <= Natural(d) <= 10000
    ensures Atom(["ta.sma", "(", "close", ",", d, ")"], symbols) == Ok(SmaSymbol(Natural(d)))
  {
    NumberStarts(d);
    hide Natural, IsAlias;
    var parts := ["ta.sma", "(", "close", ",", d, ")"];
    assert parts[2..3] == ["close"] && parts[4..5] == [d] && parts[..2] == ["ta.sma", "("];
    assert Atom([d], symbols) == Ok(IntSymbol(Natural(d))) by { assert d[0] != 'c'; }
  }

  lemma AliasReads(name: string, symbols: Symbols)
    requires (name == "entrySignal" || name == "exitSignal") && name in symbols
    ensures ReadExpression([name], symbols) == Ok(symbols[name])
  {
    NoComparisons([name]);
    assert IsAlias(name) && !IsNumber(name);
    hide Comparisons;
  }

  lemma HeaderReadsBack(p: Program)
    requires ProgramOk(p)
    ensures HeaderStatement(Written(HeaderPieces(p.title, p.size))) == Ok((p.title, p.size))
  {
    hide NonBlank, Flat, HeaderPieces, HeaderOf, Pieces, IsTitle, IsNumber, Safe;
    HeaderTokens(p.title, p.size);
    HeaderSafe(p.title, p.size);
    RoundTrip(HeaderPieces(p.title, p.size));
    HeaderReads(p.title, p.size);
    HeaderStart(p.title, p.size);
  }

  lemma HeaderStart(title: string, size: string)
    ensures HeaderPieces(title, size) != [] && HeaderPieces(title, size)[0] == "strategy"
  {}

  /** The canonical names are free to declare. */
  lemma NotReserved(name: string)
    requires name == "entrySignal" || name == "exitSignal"
    ensures !Reserved(name) && IsAlias(name)
  {
    NotSeries(name);
    hide ReservedSeries, ReservedType, ReservedKeyword, ReservedLater;
    NotType(name);
    NotKeyword(name);
    NotLater(name);
  }

  lemma NotSeries(name: string)
    requires name == "entrySignal" || name == "exitSignal"
    ensures !ReservedSeries(name)
  {
    assert name[0] == 'e' && |name| >= 10;
  }

  lemma NotType(name: string)
    requires name == "entrySignal" || name == "exitSignal"
    ensures !ReservedType(name)
  {
    assert |name| >= 10;
  }

  lemma NotKeyword(name: string)
    requires name == "entrySignal" || name == "exitSignal"
    ensures !ReservedKeyword(name)
  {
    assert |name| >= 10;
  }

  lemma NotLater(name: string)
    requires name == "entrySignal" || name == "exitSignal"
    ensures !ReservedLater(name)
  {
    assert |name| >= 10;
  }

  lemma DeclareReads(name: string, sign: string, window: nat, symbols: Symbols)
    requires (name == "entrySignal" || name == "exitSignal") && name !in symbols && |symbols| < 2
    requires IsComparison(sign) && 2 <= window <= 10000
    ensures Declare(Written(SignalPieces(name, sign, Digits(window))), symbols) == Ok(symbols[name := Comparison(sign == ">", window)])
  {
    hide ReadExpression, NonBlank, Digits, Natural, IsAlias, IsNumber, Reserved;
    NumeralIsNumber(window);
    NumberStarts(Digits(window));
    SignalTokens(name, sign, Digits(window));
    CrossReads(sign, window, symbols);
    NotReserved(name);
    var tokens := [name, "="] + CrossTokens(sign, Digits(window));
    assert tokens[2..] == CrossTokens(sign, Digits(window));
  }

  lemma IfTokens(name: string)
    requires name != "" && !Blank(name[0])
    ensures NonBlank(["if", " ", name]) == ["if", name]
  {
    assert ["if", " ", name] == ["if"] + ([" "] + [name]);
    NonBlankConcat(["if"], [" "] + [name]);
    NonBlankConcat([" "], [name]);
    NonBlankAll(["if"]);
    NonBlankAll([name]);
    assert NonBlank([" "]) == [];
  }

  lemma IfReads(name: string)
    requires name != "" && !Blank(name[0])
    ensures var w := Written(["if", " ", name]); IsIf(w) && w.indent == "" && w.tokens[1..] == [name]
  {
    IfTokens(name);
    hide NonBlank;
  }

  lemma CallReads(call: seq<string>)
    ensures Written([INDENT] + call) == Statement(INDENT, NonBlank(call))
  {
    NonBlankConcat([INDENT], call);
    assert NonBlank([INDENT]) == [];
  }

  lemma ConditionReads(name: string, call: seq<string>, symbols: Symbols)
    requires name != "" && !Blank(name[0])
    ensures IsIf(Written(["if", " ", name]))
    ensures Condition(Written(["if", " ", name]), Written([INDENT] + call), call, symbols) == ReadExpression([name], symbols)
  {
    hide NonBlank, ReadExpression;
    IfReads(name);
    CallReads(call);
  }

  lemma SignalNotIf(name: string, sign: string, window: string)
    requires (name == "entrySignal" || name == "exitSignal") && IsComparison(sign) && window != "" && !Blank(window[0])
    ensures !IsIf(Written(SignalPieces(name, sign, window)))
  {
    SignalTokens(name, sign, window);
    hide NonBlank;
  }

  lemma ConditionsRead(p: Program)
    requires ProgramOk(p)
    ensures Conditions(CanonicalStatements(p)[1..]) == Ok((Comparison(true, p.window), Comparison(false, p.window)))
  {
    hide NonBlank, SignalPieces, IsTitle, IsNumber, Digits, Natural, CanonicalStatements, Written, Declare, ReadExpression, IsIf,
      Condition, Declared, SymbolsAfter;
    CanonicalBody(p);
    var body := CanonicalStatements(p)[1..];
    var w := p.window;
    NumeralIsNumber(w);
    NumberStarts(Digits(w));
    SignalNotIf("entrySignal", ">", Digits(w));
    SignalNotIf("exitSignal", "<", Digits(w));
    var one: Symbols := map["entrySignal" := Comparison(true, w)];
    var both: Symbols := one["exitSignal" := Comparison(false, w)];
    ConditionReads("entrySignal", ENTRY_CALL, both);
    ConditionReads("exitSignal", CLOSE_CALL, both);
    DeclaredTwo(body);
    DeclareReads("entrySignal", ">", w, map[]);
    DeclareReads("exitSignal", "<", w, one);
    TwoSymbols(body, one, both);
    AliasReads("entrySignal", both);
    AliasReads("exitSignal", both);
  }

  lemma CanonicalBody(p: Program)
    ensures var body, d := CanonicalStatements(p)[1..], Digits(p.window);
      && |body| == 6
      && body[0] == Written(SignalPieces("entrySignal", ">", d)) && body[1] == Written(SignalPieces("exitSignal", "<", d))
      && body[2] == Written(IF_ENTRY) && body[3] == Written([INDENT] + ENTRY_CALL)
      && body[4] == Written(IF_EXIT) && body[5] == Written([INDENT] + CLOSE_CALL)
  {
    hide HeaderPieces, NonBlank, Digits, Written;
  }

  lemma TwoSymbols(body: seq<Statement>, one: Symbols, both: Symbols)
    requires |body| >= 2 && Declare(body[0], map[]) == Ok(one) && Declare(body[1], one) == Ok(both)
    ensures SymbolsAfter(body, 2) == Ok(both)
  {
    hide Declare;
    assert SymbolsAfter(body, 0) == Ok(map[]);
    assert SymbolsAfter(body, 1) == Ok(one);
  }

  lemma DeclaredTwo(body: seq<Statement>)
    requires |body| == 6 && !IsIf(body[0]) && !IsIf(body[1]) && IsIf(body[2])
    ensures Declared(body) == 2
  {
    hide IsIf;
  }

  /** Importing the canonical eight lines gives the same eight lines. */
  lemma {:induction false} ImportIdempotent(source: string)
    requires source != "" && Imported(source).Ok?
    ensures var lines := Canonical(Imported(source).value);
      Text(lines) != "" && Imported(Text(lines)) == Imported(source)
  {
    var p := Imported(source).value;
    AcceptedProgram(source);
    hide Imported;
    CanonicalImports(p);
  }

  lemma CanonicalImports(p: Program)
    requires ProgramOk(p)
    ensures Text(Canonical(p)) != "" && Imported(Text(Canonical(p))) == Ok(p)
  {
    hide HeaderStatement, Conditions, StatementsOf, Lines, Text, Canonical, CanonicalStatements, ProgramOk, Written, HeaderPieces;
    var lines := Canonical(p);
    NoNewlines(p);
    LinesOfText(lines);
    StatementsRead(p, 7);
    assert lines[1..8] == lines[1..];
    assert CanonicalStatements(p)[..7] == CanonicalStatements(p);
    HeaderReadsBack(p);
    ConditionsRead(p);
    FirstStatement(p);
  }

  lemma FirstStatement(p: Program)
    ensures HeaderPieces(p.title, p.size) != [] && CanonicalStatements(p)[0] == Written(HeaderPieces(p.title, p.size))
  {
    assert HeaderPieces(p.title, p.size)[0] == "strategy";
    hide HeaderPieces, NonBlank, Written;
  }

  lemma NoNewlines(p: Program)
    requires ProgramOk(p)
    ensures forall k: nat, i: nat :: k < 8 && i < |Canonical(p)[k]| ==> Canonical(p)[k][i] != '\n'
  {
    forall k: nat | 1 <= k < 8
      ensures Plain(Canonical(p)[k])
    {
      CanonicalWritable(p, k - 1);
      FlatPlain(CanonicalPieces(p)[k - 1]);
    }
    hide CanonicalPieces, Flat, ProgramOk;
    assert Canonical(p)[0] == VERSION_LINE;
  }
}
