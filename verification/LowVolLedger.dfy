/** The independent hourly ledger of the low-volatility study, and the proof
    that it agrees with every completed replay. */
module LowVolLedger {
  import opened Exact
  import opened Outcomes
  import opened Drawdown
  import opened LowVol

  datatype Book = Book(cash: real, holdings: seq<real>, fees: real, turnover: real)

  const NoHoldings: seq<real> := [0.0, 0.0, 0.0, 0.0, 0.0]

  function Opening(): Book { Book(INITIAL_CASH, NoHoldings, 0.0, 0.0) }

  /** Post one fill to the settled book; a malformed fill or a negative balance is refused. */
  function Post(b: Book, f: Fill): (r: Outcome<Book, Fault>)
    requires |b.holdings| == MARKETS
    ensures r.Done? ==> |r.value.holdings| == MARKETS
  {
    if f.market >= MARKETS || f.quantity <= 0.0 || f.price <= 0.0 || f.fee < 0.0 then Thrown(InvalidFill)
    else
      var notional := Worth(f.quantity, f.price);
      var cash := if f.side == Buy then b.cash - (notional + f.fee) else b.cash + (notional - f.fee);
      var held := if f.side == Buy then b.holdings[f.market] + f.quantity else b.holdings[f.market] - f.quantity;
      if cash < 0.0 || held < 0.0 then Thrown(Negative)
      else Done(Book(cash, b.holdings[f.market := held], b.fees + f.fee, b.turnover + notional))
  }

  function Posted(fills: seq<Fill>): (r: Outcome<Book, Fault>)
    ensures r.Done? ==> |r.value.holdings| == MARKETS
  {
    if fills == [] then Done(Opening()) else
    var b :- Posted(fills[..|fills| - 1]);
    Post(b, fills[|fills| - 1])
  }

  /** The holdings at one price per market. */
  function Dot(holdings: seq<real>, prices: seq<real>): real
    requires |holdings| == |prices|
  {
    if holdings == [] then 0.0
    else
      var n := |holdings| - 1;
      Dot(holdings[..n], prices[..n]) + Worth(holdings[n], prices[n])
  }

  function Closes(bars: seq<seq<Bar>>, t: int): (r: seq<real>)
    requires Indexed(bars) && Within(bars, t)
    ensures |r| == MARKETS
  {
    seq(MARKETS, m requires 0 <= m < MARKETS => BarAt(bars, m, t).close)
  }

  function Opens(bars: seq<seq<Bar>>, t: int): (r: seq<real>)
    requires Indexed(bars) && Within(bars, t)
    ensures |r| == MARKETS
  {
    seq(MARKETS, m requires 0 <= m < MARKETS => BarAt(bars, m, t).open)
  }

  function Marked(b: Book, prices: seq<real>): real
    requires |b.holdings| == |prices|
  {
    b.cash + Dot(b.holdings, prices)
  }

  // ----- the hourly walk

  datatype Walk = Walk(cursor: nat, book: Book, values: seq<real>, monthly: seq<(int, real)>)

  /** Post the fills of one hour, from the cursor on. */
  function Consume(fills: seq<Fill>, cursor: nat, b: Book, t: int): (r: Outcome<(nat, Book), Fault>)
    requires cursor <= |fills| && |b.holdings| == MARKETS
    ensures r.Done? ==> cursor <= r.value.0 <= |fills| && |r.value.1.holdings| == MARKETS
    decreases |fills| - cursor
  {
    if cursor == |fills| || fills[cursor].time != t then Done((cursor, b)) else
    var next :- Post(b, fills[cursor]);
    Consume(fills, cursor + 1, next, t)
  }

  predicate Window(bars: seq<seq<Bar>>, first: int, terminal: int)
  {
    Indexed(bars) && Within(bars, first - 1) && Within(bars, terminal + 1) && first <= terminal
  }

  function Hour(bars: seq<seq<Bar>>, fills: seq<Fill>, w: Walk, t: int, months: set<int>): (r: Outcome<Walk, Fault>)
    requires Indexed(bars) && Within(bars, t - 1) && Within(bars, t) && w.cursor <= |fills| && |w.book.holdings| == MARKETS
    ensures r.Done? ==> r.value.cursor <= |fills| && |r.value.book.holdings| == MARKETS
  {
    var monthly := if t in months then w.monthly + [(t, Marked(w.book, Closes(bars, t - 1)))] else w.monthly;
    var (cursor, book) :- Consume(fills, w.cursor, w.book, t);
    Done(Walk(cursor, book, w.values + [Marked(book, Closes(bars, t))], monthly))
  }

  /** The walk after `n` hours. */
  function Hours(bars: seq<seq<Bar>>, fills: seq<Fill>, first: int, n: nat, months: set<int>): (r: Outcome<Walk, Fault>)
    requires Indexed(bars) && Within(bars, first - 1) && Within(bars, first - 1 + n)
    ensures r.Done? ==> r.value.cursor <= |fills| && |r.value.book.holdings| == MARKETS
  {
    if n == 0 then Done(Walk(0, Opening(), [], [])) else
    var w :- Hours(bars, fills, first, n - 1, months);
    Hour(bars, fills, w, first + n - 1, months)
  }

  datatype Measures = Measures(netReturn: real, maxDrawdown: real, terminalEquity: real, cash: real, fees: real, turnover: real,
                               monthly: seq<(int, real)>)

  function MeasuresOf(bars: seq<seq<Bar>>, fills: seq<Fill>, first: int, terminal: int, months: set<int>): Outcome<Measures, Fault>
    requires Window(bars, first, terminal)
  {
    var w :- Hours(bars, fills, first, terminal - first + 1, months);
    if w.cursor != |fills| then Thrown(OutsideWindow) else
    var equity := Marked(w.book, Opens(bars, terminal + 1));
    Done(Measures((equity - INITIAL_CASH) / INITIAL_CASH, WorstFall(INITIAL_CASH, w.values + [equity]), equity,
                  w.book.cash, w.book.fees, w.book.turnover, w.monthly))
  }

  lemma {:induction false} HoursThrown(bars: seq<seq<Bar>>, fills: seq<Fill>, first: int, i: nat, j: nat, months: set<int>)
    requires Indexed(bars) && Within(bars, first - 1) && Within(bars, first - 1 + j) && i <= j
    requires Hours(bars, fills, first, i, months).Thrown?
    ensures Hours(bars, fills, first, j, months) == Hours(bars, fills, first, i, months)
  {
    hide Hour, Indexed;
    if i < j {
      HoursThrown(bars, fills, first, i, j - 1, months);
    }
  }

  /** The inner loop: post every fill of the hour. */
  method PostHour(fills: seq<Fill>, start: nat, opening: Book, t: int) returns (r: Outcome<(nat, Book), Fault>)
    requires start <= |fills| && |opening.holdings| == MARKETS
    ensures r == Consume(fills, start, opening, t)
  {
    hide Post;
    var cursor, book := start, opening;
    while cursor < |fills| && fills[cursor].time == t
      invariant cursor <= |fills| && |book.holdings| == MARKETS
      invariant Consume(fills, cursor, book, t) == Consume(fills, start, opening, t)
      decreases |fills| - cursor
    {
      var next := Post(book, fills[cursor]);
      if next.Thrown? {
        return Thrown(next.fault);
      }
      book := next.value;
      cursor := cursor + 1;
    }
    return Done((cursor, book));
  }

  /** The program's loop over hours, with its running peak and drawdown. */
  method Measure(bars: seq<seq<Bar>>, fills: seq<Fill>, first: int, terminal: int, months: set<int>) returns (r: Outcome<Measures, Fault>)
    requires Window(bars, first, terminal)
    ensures r == MeasuresOf(bars, fills, first, terminal, months)
  {
    hide Indexed, BarAt, Post, Dot, Closes, Opens, Worth, Consume, PeakFrom, WorstFall, Marked;
    var book, cursor: nat, when := Opening(), 0, first;
    var monthly: seq<(int, real)>, peak, drawdown: real := [], INITIAL_CASH, 0.0;
    ghost var values: seq<real> := [];
    NothingYet();
    while when <= terminal
      invariant first <= when <= terminal + 1 && cursor <= |fills| && |book.holdings| == MARKETS
      invariant Hours(bars, fills, first, when - first, months) == Done(Walk(cursor, book, values, monthly))
      invariant peak == PeakFrom(INITIAL_CASH, values) && peak > 0.0 && drawdown == WorstFall(INITIAL_CASH, values)
    {
      if when in months {
        monthly := monthly + [(when, Marked(book, Closes(bars, when - 1)))];
      }
      var posted := PostHour(fills, cursor, book, when);
      if posted.Thrown? {
        HoursThrown(bars, fills, first, when - first + 1, terminal - first + 1, months);
        return Thrown(posted.fault);
      }
      cursor, book := posted.value.0, posted.value.1;
      var value := Marked(book, Closes(bars, when));
      ValueAppends(values, value);
      peak := Max(peak, value);
      drawdown := Max(drawdown, (peak - value) / peak);
      values := values + [value];
      when := when + 1;
    }
    if cursor != |fills| {
      return Thrown(OutsideWindow);
    }
    var equity := Marked(book, Opens(bars, terminal + 1));
    ValueAppends(values, equity);
    peak := Max(peak, equity);
    drawdown := Max(drawdown, (peak - equity) / peak);
    return Done(Measures((equity - INITIAL_CASH) / INITIAL_CASH, drawdown, equity, book.cash, book.fees, book.turnover, monthly));
  }

  lemma NothingYet()
    ensures PeakFrom(INITIAL_CASH, []) == INITIAL_CASH && WorstFall(INITIAL_CASH, []) == 0.0
  {}

  lemma ValueAppends(values: seq<real>, value: real)
    ensures var peak := Max(PeakFrom(INITIAL_CASH, values), value);
      && PeakFrom(INITIAL_CASH, values + [value]) == peak > 0.0
      && WorstFall(INITIAL_CASH, values + [value]) == Max(WorstFall(INITIAL_CASH, values), (peak - value) / peak)
  {
    assert (values + [value])[..|values|] == values;
    PeakAtLeast(INITIAL_CASH, values);
  }
}
