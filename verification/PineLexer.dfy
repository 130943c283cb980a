/** The tokens of the imported script subset: every character is consumed, and
    lexing and writing pieces out again are inverse to each other. */
module PineLexer {
  import opened Exact
  import opened Characters

  predicate Blank(c: char) { c == ' ' || c == '\t' }

  predicate Letter(c: char) { 'A' <= c <= 'Z' || 'a' <= c <= 'z' || c == '_' }

  predicate Digit(c: char) { '0' <= c <= '9' }

  predicate TitleChar(c: char) { 'A' <= c <= 'Z' || 'a' <= c <= 'z' || Digit(c) || c == ' ' || c == '_' || c == '-' }

  predicate Mark(c: char) { c == '(' || c == ')' || c == ',' || c == '=' || c == '<' || c == '>' }

  const MAX_TITLE := 64

  datatype Class = BlankRun | DigitRun | TitleRun

  predicate Belongs(c: char, k: Class)
  {
    match k case BlankRun => Blank(c) case DigitRun => Digit(c) case TitleRun => TitleChar(c)
  }

  /** The end of the run of a character class that includes position `n - 1`. */
  function RunEnd(s: string, n: nat, k: Class): (r: nat)
    requires n <= |s|
    ensures n <= r <= |s| && (forall i :: n <= i < r ==> Belongs(s[i], k)) && (r < |s| ==> !Belongs(s[r], k))
    decreases |s| - n
  {
    if n < |s| && Belongs(s[n], k) then RunEnd(s, n + 1, k) else n
  }

  /** A name goes on with a letter, a digit, or a dot before a letter. */
  predicate Continues(s: string, n: nat)
    requires n < |s|
  {
    Letter(s[n]) || Digit(s[n]) || (s[n] == '.' && n + 1 < |s| && Letter(s[n + 1]))
  }

  function NameEnd(s: string, n: nat): (r: nat)
    requires n <= |s|
    ensures n <= r <= |s| && (forall i :: n <= i < r ==> Continues(s, i)) && (r < |s| ==> !Continues(s, r))
    decreases |s| - n
  {
    if n < |s| && Continues(s, n) then NameEnd(s, n + 1) else n
  }

  /** The length of the first lexeme; `None` for an unsupported character. */
  function First(s: string): (r: Option<nat>)
    requires s != ""
    ensures r.Some? ==> 1 <= r.value <= |s|
  {
    if Blank(s[0]) then Some(RunEnd(s, 1, BlankRun))
    else if s[0] == '"' then
      var end := RunEnd(s, 1, TitleRun);
      if 1 <= end - 1 <= MAX_TITLE && end < |s| && s[end] == '"' then Some(end + 1) else None
    else if Letter(s[0]) then Some(NameEnd(s, 1))
    else if Digit(s[0]) then Some(RunEnd(s, 1, DigitRun))
    else if Mark(s[0]) then Some(1)
    else None
  }

  /** All lexemes of a line, blanks included. */
  function Pieces(s: string): Option<seq<string>>
  {
    if s == "" then Some([])
    else
      var n := First(s);
      if n.None? then None
      else
        var rest := Pieces(s[n.value..]);
        if rest.None? then None else Some([s[..n.value]] + rest.value)
  }

  function NonBlank(pieces: seq<string>): seq<string>
  {
    if pieces == [] then []
    else Shown(pieces[0]) + NonBlank(pieces[1..])
  }

  function Shown(piece: string): seq<string> { if piece != "" && Blank(piece[0]) then [] else [piece] }

  /** The tokens of a line; `None` where the program reports an unsupported token. */
  function TokensOf(s: string): Option<seq<string>>
  {
    var pieces := Pieces(s);
    if pieces.None? then None else Some(NonBlank(pieces.value))
  }

  function Flat(pieces: seq<string>): string
  {
    if pieces == [] then "" else pieces[0] + Flat(pieces[1..])
  }

  /** Every character of a line is in exactly one piece, in order. */
  lemma {:induction false} Lossless(s: string)
    requires Pieces(s).Some?
    ensures Flat(Pieces(s).value) == s
  {
    if s != "" {
      var n := First(s).value;
      Lossless(s[n..]);
      assert ([s[..n]] + Pieces(s[n..]).value)[1..] == Pieces(s[n..]).value;
      assert s == s[..n] + s[n..];
    }
  }

  function With(prefix: seq<string>, rest: Option<seq<string>>): Option<seq<string>>
  {
    if rest.None? then None else Some(prefix + rest.value)
  }

  lemma WithAssociates(a: seq<string>, b: seq<string>, rest: Option<seq<string>>)
    ensures With([], rest) == rest && With(a, With(b, rest)) == With(a + b, rest)
  {
    if rest.Some? {
      assert [] + rest.value == rest.value;
      assert a + (b + rest.value) == (a + b) + rest.value;
    }
  }

  lemma TokensStep(s: string)
    requires s != ""
    ensures var n := First(s);
      TokensOf(s) == if n.None? then None else With(if Blank(s[0]) then [] else [s[..n.value]], TokensOf(s[n.value..]))
  {
    var n := First(s);
    if n.Some? && Pieces(s[n.value..]).Some? {
      var rest := Pieces(s[n.value..]).value;
      assert ([s[..n.value]] + rest)[1..] == rest;
    }
  }

  /** The program's loop over one line. */
  method Tokens(line: string) returns (r: Option<seq<string>>)
    ensures r == TokensOf(line)
  {
    hide First, TokensOf, With;
    var result: seq<string>, pos: nat := [], 0;
    assert line[0..] == line;
    WithAssociates([], [], TokensOf(line));
    while pos < |line|
      invariant pos <= |line|
      invariant TokensOf(line) == With(result, TokensOf(line[pos..]))
    {
      var rest := line[pos..];
      TokensStep(rest);
      var n := First(rest);
      if n.None? {
        NoTokens(result);
        return None;
      }
      var token := rest[..n.value];
      assert rest[n.value..] == line[pos + n.value..];
      WithAssociates(result, if Blank(rest[0]) then [] else [token], TokensOf(rest[n.value..]));
      if !Blank(token[0]) {
        result := result + [token];
      } else {
        assert result + [] == result;
      }
      pos := pos + n.value;
    }
    assert line[pos..] == "";
    AllTokens(result);
    return Some(result);
  }

  lemma NoTokens(result: seq<string>)
    ensures With(result, None) == None
  {}

  lemma AllTokens(result: seq<string>)
    ensures With(result, TokensOf("")) == Some(result)
  {
    assert Pieces("") == Some([]) && NonBlank([]) == [];
    assert result + [] == result;
  }

  // ----- writing pieces

  predicate IsName(p: string) { p != "" && Letter(p[0]) && forall i :: 0 <= i < |p| ==> Continues(p, i) }

  predicate IsNumber(p: string) { p != "" && forall i :: 0 <= i < |p| ==> Digit(p[i]) }

  predicate IsTitle(p: string)
  {
    3 <= |p| <= MAX_TITLE + 2 && p[0] == '"' && p[|p| - 1] == '"' && forall i :: 0 < i < |p| - 1 ==> TitleChar(p[i])
  }

  predicate IsBlank(p: string) { p != "" && forall i :: 0 <= i < |p| ==> Blank(p[i]) }

  predicate IsMark(p: string) { |p| == 1 && Mark(p[0]) }

  predicate Lexeme(p: string) { IsName(p) || IsNumber(p) || IsTitle(p) || IsBlank(p) || IsMark(p) }

  /** The character classes one by one, and a title: one to sixty-four of its characters in quotes. */
  lemma LexemesSpelledOut(c: char, p: string)
    ensures Letter(c) <==> c in UPPER || c in LOWER || c == '_'
    ensures Digit(c) <==> c in DECIMAL
    ensures Blank(c) <==> c in {' ', '\t'}
    ensures Mark(c) <==> c in "(),=<>"
    ensures IsTitle(p) <==>
      && 3 <= |p| <= 66 && p[0] == '"' && p[|p| - 1] == '"'
      && forall i :: 0 < i < |p| - 1 ==> p[i] in UPPER || p[i] in LOWER || p[i] in DECIMAL || p[i] in " _-"
  {
    UpperAre(c);
    LowerAre(c);
    DecimalAre(c);
    forall i | 0 < i < |p| - 1
      ensures TitleChar(p[i]) <==> p[i] in UPPER || p[i] in LOWER || p[i] in DECIMAL || p[i] in " _-"
    {
      UpperAre(p[i]);
      LowerAre(p[i]);
      DecimalAre(p[i]);
    }
  }

  /** The next piece cannot be taken for a continuation of this one. */
  predicate Apart(p: string, q: string)
    requires p != "" && q != ""
  {
    && (Blank(p[0]) ==> !Blank(q[0]))
    && (Letter(p[0]) ==> !Letter(q[0]) && !Digit(q[0]) && q[0] != '.')
    && (Digit(p[0]) ==> !Digit(q[0]))
  }

  predicate Safe(pieces: seq<string>)
  {
    && (forall i: nat :: i < |pieces| ==> Lexeme(pieces[i]) && pieces[i] != "")
    && forall i: nat, j: nat :: i + 1 == j < |pieces| ==> Apart(pieces[i], pieces[j])
  }

  lemma {:induction false} RunEnds(p: string, rest: string, n: nat, k: Class)
    requires n <= |p| && (forall i :: n <= i < |p| ==> Belongs(p[i], k)) && (rest != "" ==> !Belongs(rest[0], k))
    ensures RunEnd(p + rest, n, k) == |p|
    decreases |p| - n
  {
    if n < |p| {
      RunEnds(p, rest, n + 1, k);
    }
  }

  lemma {:induction false} NameEnds(p: string, rest: string, n: nat)
    requires n <= |p| && (forall i :: n <= i < |p| ==> Continues(p, i))
    requires rest != "" ==> !Letter(rest[0]) && !Digit(rest[0]) && rest[0] != '.'
    ensures NameEnd(p + rest, n) == |p|
    decreases |p| - n
  {
    var s := p + rest;
    if n < |p| {
      assert Continues(p, n);
      assert Continues(s, n);
      NameEnds(p, rest, n + 1);
    }
  }

  /** A lexeme before something it cannot run into is the first lexeme. */
  lemma FirstIs(p: string, rest: string)
    requires Lexeme(p) && p != "" && (rest != "" ==> Apart(p, rest))
    ensures First(p + rest) == Some(|p|)
  {
    hide RunEnd, NameEnd;
    var s := p + rest;
    assert s[0] == p[0];
    if Blank(p[0]) {
      RunEnds(p, rest, 1, BlankRun);
    } else if p[0] == '"' {
      var body := p[..|p| - 1];
      assert s == body + ("\"" + rest);
      RunEnds(body, "\"" + rest, 1, TitleRun);
    } else if Letter(p[0]) {
      NameEnds(p, rest, 1);
    } else if Digit(p[0]) {
      RunEnds(p, rest, 1, DigitRun);
    }
  }

  /** Lexing what was written from safe pieces gives the pieces back. */
  lemma {:induction false} RoundTrip(pieces: seq<string>)
    requires Safe(pieces)
    ensures Pieces(Flat(pieces)) == Some(pieces)
  {
    hide Lexeme, Apart, First;
    if pieces != [] {
      var p, rest := pieces[0], Flat(pieces[1..]);
      assert Safe(pieces[1..]) by { SafeTail(pieces); }
      RoundTrip(pieces[1..]);
      FlatStarts(pieces);
      FirstIs(p, rest);
      assert Flat(pieces)[..|p|] == p && Flat(pieces)[|p|..] == rest;
      assert [p] + pieces[1..] == pieces;
    }
  }

  lemma SafeTail(pieces: seq<string>)
    requires Safe(pieces) && pieces != []
    ensures Safe(pieces[1..])
  {
    var rest := pieces[1..];
    forall i: nat | i < |rest|
      ensures rest[i] == pieces[i + 1]
    {}
    forall i: nat, j: nat | i + 1 == j < |rest|
      ensures Apart(rest[i], rest[j])
    {
      assert Apart(pieces[i + 1], pieces[j + 1]);
    }
  }

  lemma FlatStarts(pieces: seq<string>)
    requires Safe(pieces) && pieces != []
    ensures pieces[0] != "" && Lexeme(pieces[0]) && (Flat(pieces[1..]) != "" ==> Apart(pieces[0], Flat(pieces[1..])))
  {
    hide Lexeme;
    if |pieces| > 1 {
      assert Apart(pieces[0], pieces[1]);
      assert Flat(pieces[1..])[0] == pieces[1][0];
    }
  }

  lemma SafeConcat(a: seq<string>, b: seq<string>)
    requires Safe(a) && Safe(b) && (a != [] && b != [] ==> Apart(a[|a| - 1], b[0]))
    ensures Safe(a + b)
  {
    hide Lexeme;
    var c := a + b;
    forall i: nat | i < |c|
      ensures Lexeme(c[i]) && c[i] != ""
    {
      assert c[i] == if i < |a| then a[i] else b[i - |a|];
    }
    forall i: nat, j: nat | i + 1 == j < |c|
      ensures Apart(c[i], c[j])
    {
      if j < |a| {
        assert Apart(a[i], a[j]);
      } else if i >= |a| {
        assert Apart(b[i - |a|], b[j - |a|]);
      }
    }
  }

  lemma {:induction false} NonBlankConcat(a: seq<string>, b: seq<string>)
    ensures NonBlank(a + b) == NonBlank(a) + NonBlank(b)
  {
    if a == [] {
      assert a + b == b;
    } else {
      hide Shown;
      assert (a + b)[1..] == a[1..] + b;
      NonBlankConcat(a[1..], b);
    }
  }
}
