/** What is computed from an emitted trace: the streaming metrics sink and the
    profit decomposition. */
module PackageMetrics {
  import opened Exact
  import opened Drawdown
  import opened PackageReplay

  function FillsOf(rows: seq<Row>): seq<Fill>
  {
    if rows == [] then []
    else
      var last := rows[|rows| - 1];
      FillsOf(rows[..|rows| - 1]) + (if last.fill.Some? then [last.fill.value] else [])
  }

  function EquitiesOf(rows: seq<Row>): (r: seq<real>)
    ensures |r| == |rows| && forall k :: 0 <= k < |rows| ==> r[k] == rows[k].equity
  {
    seq(|rows|, k requires 0 <= k < |rows| => rows[k].equity)
  }

  function Notional(f: Fill): real { Worth(f.quantity, f.price) }

  function FeesOf(fills: seq<Fill>): real
  {
    if fills == [] then 0.0 else FeesOf(fills[..|fills| - 1]) + fills[|fills| - 1].fee
  }

  function NotionalOf(fills: seq<Fill>): real
  {
    if fills == [] then 0.0 else NotionalOf(fills[..|fills| - 1]) + Notional(fills[|fills| - 1])
  }

  function SalesOf(fills: seq<Fill>): nat
  {
    if fills == [] then 0
    else SalesOf(fills[..|fills| - 1]) + (if fills[|fills| - 1].side == Sell then 1 else 0)
  }

  function HeldIn(rows: seq<Row>): nat
  {
    if rows == [] then 0 else HeldIn(rows[..|rows| - 1]) + (if rows[|rows| - 1].units > 0.0 then 1 else 0)
  }

  /** Appending a row appends its fill, if it has one. */
  lemma {:induction false} FillsAppend(rows: seq<Row>, row: Row)
    ensures FillsOf(rows + [row]) == if row.fill.Some? then FillsOf(rows) + [row.fill.value] else FillsOf(rows)
  {
    assert (rows + [row])[..|rows|] == rows;
  }

  lemma {:induction false} TotalsAppend(fills: seq<Fill>, f: Fill)
    ensures FeesOf(fills + [f]) == FeesOf(fills) + f.fee
    ensures NotionalOf(fills + [f]) == NotionalOf(fills) + Notional(f)
    ensures SalesOf(fills + [f]) == SalesOf(fills) + (if f.side == Sell then 1 else 0)
  {
    hide Notional;
    assert (fills + [f])[..|fills|] == fills;
  }

  lemma {:induction false} RowsAppend(initial: real, rows: seq<Row>, row: Row)
    requires initial > 0.0
    ensures HeldIn(rows + [row]) == HeldIn(rows) + (if row.units > 0.0 then 1 else 0)
    ensures var before, peak := EquitiesOf(rows), Max(PeakFrom(initial, EquitiesOf(rows)), row.equity);
      && PeakFrom(initial, EquitiesOf(rows + [row])) == peak > 0.0
      && WorstFall(initial, EquitiesOf(rows + [row])) == Max(WorstFall(initial, before), (peak - row.equity) / peak)
  {
    assert (rows + [row])[..|rows|] == rows;
    var equities := EquitiesOf(rows);
    assert EquitiesOf(rows + [row]) == equities + [row.equity];
    assert (equities + [row.equity])[..|equities|] == equities;
    PeakAtLeast(initial, equities);
  }

  datatype MetricsResult = MetricsResult(netReturn: real, maxDrawdown: real, fillCount: nat, roundTrips: nat, fees: real,
                                         turnover: real, exposure: real, terminalUnits: real, terminalEquity: real, bars: nat)

  /** The metrics of a whole trace, without the stream. */
  function MetricsOf(initial: real, rows: seq<Row>): MetricsResult
    requires initial > 0.0 && rows != []
  {
    var last, fills := rows[|rows| - 1], FillsOf(rows);
    MetricsResult(last.equity / initial - 1.0, WorstFall(initial, EquitiesOf(rows)), |fills|, SalesOf(fills), FeesOf(fills),
                  NotionalOf(fills) / initial, HeldIn(rows) as real / |rows| as real, last.units, last.equity, |rows|)
  }

  /** The streaming sink: one call per emitted row. */
  class Metrics {
    const initial: real
    var peak: real
    var final: real
    var drawdown: real
    var fees: real
    var notional: real
    var fills: nat
    var roundTrips: nat
    var held: nat
    var count: nat
    var units: real
    ghost var rows: seq<Row>

    ghost predicate Valid()
      reads this
    {
      && initial > 0.0
      && peak == PeakFrom(initial, EquitiesOf(rows))
      && drawdown == WorstFall(initial, EquitiesOf(rows))
      && final == (if rows == [] then initial else rows[|rows| - 1].equity)
      && units == (if rows == [] then 0.0 else rows[|rows| - 1].units)
      && fills == |FillsOf(rows)|
      && roundTrips == SalesOf(FillsOf(rows))
      && fees == FeesOf(FillsOf(rows))
      && notional == NotionalOf(FillsOf(rows))
      && held == HeldIn(rows)
      && count == |rows|
    }

    constructor (initialCash: real)
      requires initialCash > 0.0
      ensures Valid() && rows == [] && initial == initialCash
    {
      initial, peak, final := initialCash, initialCash, initialCash;
      drawdown, fees, notional, units := 0.0, 0.0, 0.0, 0.0;
      fills, roundTrips, held, count := 0, 0, 0, 0;
      rows := [];
    }

    method Emit(row: Row)
      requires Valid()
      modifies this
      ensures Valid() && rows == old(rows) + [row]
    {
      hide Notional, FillsOf, FeesOf, NotionalOf, SalesOf, HeldIn, PeakFrom, WorstFall, EquitiesOf;
      FillsAppend(rows, row);
      RowsAppend(initial, rows, row);
      count := count + 1;
      final, units := row.equity, row.units;
      held := held + (if units > 0.0 then 1 else 0);
      peak := Max(peak, final);
      drawdown := Max(drawdown, (peak - final) / peak);
      if row.fill.Some? {
        var fill := row.fill.value;
        TotalsAppend(FillsOf(rows), fill);
        fills := fills + 1;
        roundTrips := roundTrips + (if fill.side == Sell then 1 else 0);
        fees := fees + fill.fee;
        notional := notional + Notional(fill);
      }
      rows := rows + [row];
    }

    method Result() returns (r: MetricsResult)
      requires Valid() && rows != []
      ensures r == MetricsOf(initial, rows)
    {
      r := MetricsResult(final / initial - 1.0, drawdown, fills, roundTrips, fees, notional / initial,
                         held as real / count as real, units, final, count);
    }
  }

  // ----- profit decomposition

  /** The fee-inclusive cost of the open inventory. */
  function Basis(fills: seq<Fill>): real
  {
    if fills == [] then 0.0
    else
      var last := fills[|fills| - 1];
      if last.side == Buy then Basis(fills[..|fills| - 1]) + (Notional(last) + last.fee) else 0.0
  }

  /** The result of each closed trade, in order. */
  function Profits(fills: seq<Fill>): seq<real>
  {
    if fills == [] then []
    else
      var front, last := fills[..|fills| - 1], fills[|fills| - 1];
      if last.side == Buy then Profits(front) else Profits(front) + [Notional(last) - last.fee - Basis(front)]
  }

  function Largest(s: seq<real>): Option<real>
  {
    if s == [] then None
    else
      var before := Largest(s[..|s| - 1]);
      Some(if before.None? then s[|s| - 1] else Max(before.value, s[|s| - 1]))
  }

  lemma {:induction false} ProfitsAppend(fills: seq<Fill>, f: Fill)
    ensures Basis(fills + [f]) == if f.side == Buy then Basis(fills) + (Notional(f) + f.fee) else 0.0
    ensures Profits(fills + [f]) == if f.side == Buy then Profits(fills) else Profits(fills) + [Notional(f) - f.fee - Basis(fills)]
  {
    hide Notional;
    assert (fills + [f])[..|fills|] == fills;
  }

  lemma {:induction false} LargestAppend(s: seq<real>, x: real)
    ensures Largest(s + [x]) == Some(if Largest(s).None? then x else Max(Largest(s).value, x))
  {
    assert (s + [x])[..|s|] == s;
  }

  datatype Diagnostics = Diagnostics(largest: Option<real>, unrealized: real, exitCost: real)

  /** The retained-trace decomposition; `None` is the empty trace. */
  method TraceDiagnostics(rows: seq<Row>, fee: real, adverse: real) returns (r: Option<Diagnostics>)
    ensures r.None? <==> rows == []
    ensures r.Some? ==>
      && r.value.largest == Largest(Profits(FillsOf(rows)))
      && r.value.unrealized == rows[|rows| - 1].equity - rows[|rows| - 1].cash - Basis(FillsOf(rows))
      && r.value.exitCost == (rows[|rows| - 1].equity - rows[|rows| - 1].cash) * (1.0 - (1.0 - adverse) * (1.0 - fee))
  {
    hide Notional, FillsOf, Basis, Profits, Largest;
    var basis: real, largest: Option<real>, final: Option<Row> := 0.0, None, None;
    Empty();
    for k := 0 to |rows|
      invariant basis == Basis(FillsOf(rows[..k]))
      invariant largest == Largest(Profits(FillsOf(rows[..k])))
      invariant final == if k == 0 then None else Some(rows[k - 1])
    {
      var row := rows[k];
      assert rows[..k + 1] == rows[..k] + [row];
      FillsAppend(rows[..k], row);
      ghost var before := FillsOf(rows[..k]);
      if row.fill.Some? {
        var fill := row.fill.value;
        ProfitsAppend(before, fill);
        var notional := Notional(fill);
        if fill.side == Buy {
          basis := basis + (notional + fill.fee);
        } else {
          var profit := notional - fill.fee - basis;
          LargestAppend(Profits(before), profit);
          largest := Some(if largest.None? then profit else Max(largest.value, profit));
          basis := 0.0;
        }
      }
      final := Some(row);
    }
    assert rows[..|rows|] == rows;
    if final.None? {
      return None;
    }
    var marked := final.value.equity - final.value.cash;
    return Some(Diagnostics(largest, marked - basis, marked * (1.0 - (1.0 - adverse) * (1.0 - fee))));
  }

  lemma Empty()
    ensures FillsOf([]) == [] && Basis([]) == 0.0 && Profits([]) == [] && Largest([]) == None
  {}
}
