/** The H1 research replay: one pass over hourly bars that fills each proposal
    at the next open, marks the account at each close, and liquidates at the
    terminal open.  Times are integer hours. */
module H1Replay {
  import opened Exact
  import opened Outcomes
  import opened H1Policy

  datatype Bar = Bar(start: int, open: real, close: real, closed: bool)
  datatype Cost = Cost(adverse: real, fee: real)
  datatype Fill = Fill(signalClosed: int, filledAt: int, intent: Intent, units: real, price: real, fee: real,
                       cashAfter: real, unitsAfter: real, terminal: bool)
  datatype Mark = Mark(closedAt: int, cash: real, units: real, equity: real, exposure: real)
  datatype ReplayResult = ReplayResult(cash: real, units: real, totalFees: real,
                                       fills: seq<Fill>, decisions: seq<Decision>, marks: seq<Mark>)

  /** One constructor for each place the program throws. */
  datatype Fault = InvalidCost | InvalidBounds | WrongBarCount | InvalidBars | SignalOnSourceBar | InvalidTerms
                 | EntryWhileLong | ZeroUnits | Borrowing | ExitInCash | HoldFill | DivideByZero
                 | PolicyRejected | Unsettled

  function Need<T>(o: Option<T>, fault: Fault): Outcome<T, Fault>
  {
    if o.None? then Thrown(fault) else Done(o.value)
  }

  const STARTING_CASH: real := 10000.0
  const WARMUP: nat := 168

  predicate ValidCost(cost: Cost) { 0.0 <= cost.adverse < 1.0 && 0.0 <= cost.fee < 1.0 }

  predicate ValidBar(bars: seq<Bar>, start: int, i: nat)
    requires i < |bars|
  {
    && bars[i].start == start - WARMUP + i
    && bars[i].open > 0.0
    && (i < |bars| - 1 ==> bars[i].closed && bars[i].close > 0.0)
  }

  /** 168 warmup hours, every scored hour, and one terminal open. */
  predicate ValidPartition(bars: seq<Bar>, start: int, end: int)
  {
    && start < end
    && |bars| == WARMUP + (end - start) + 1
    && forall i: nat :: i < |bars| ==> ValidBar(bars, start, i)
  }

  function Closes(bars: seq<Bar>, n: nat): seq<real>
    requires n <= |bars|
  {
    seq(n, i requires 0 <= i < n => bars[i].close)
  }

  function Price(open: real, buy: bool, cost: Cost): Option<real>
  {
    if open <= 0.0 || !ValidCost(cost) then None
    else Some(if buy then open * (1.0 + cost.adverse) else open * (1.0 - cost.adverse))
  }

  function Fee(quantity: real, price: real, cost: Cost): Option<real>
  {
    if quantity <= 0.0 || price <= 0.0 || cost.fee < 0.0 || cost.fee >= 1.0 then None
    else Some(FeeOn(quantity, price, cost.fee))
  }

  datatype Account = Account(cash: real, units: real, fees: real, fills: seq<Fill>)

  function EntryQuantity(cash: real, price: real): real
    requires price != 0.0
  {
    FloorUnits(cash * ENTRY_TARGET * UNIT_SCALE / price)
  }

  function FillEntry(a: Account, signalClosed: int, filledAt: int, open: real, terminal: bool, cost: Cost): Outcome<Account, Fault>
  {
    if a.units != 0.0 then Thrown(EntryWhileLong) else
    var price :- Need(Price(open, true, cost), InvalidTerms);
    if price == 0.0 then Thrown(DivideByZero) else
    var quantity := EntryQuantity(a.cash, price);
    if quantity <= 0.0 then Thrown(ZeroUnits) else
    var fee :- Need(Fee(quantity, price, cost), InvalidTerms);
    var cash := a.cash - (Worth(quantity, price) + fee);
    if cash < 0.0 then Thrown(Borrowing) else
    Done(Account(cash, quantity, a.fees + fee,
                 a.fills + [Fill(signalClosed, filledAt, EnterLong, quantity, price, fee, cash, quantity, terminal)]))
  }

  function FillExit(a: Account, signalClosed: int, filledAt: int, open: real, terminal: bool, cost: Cost): Outcome<Account, Fault>
  {
    if a.units <= 0.0 then Thrown(ExitInCash) else
    var price :- Need(Price(open, false, cost), InvalidTerms);
    var fee :- Need(Fee(a.units, price, cost), InvalidTerms);
    var cash := a.cash + (Worth(a.units, price) - fee);
    Done(Account(cash, 0.0, a.fees + fee,
                 a.fills + [Fill(signalClosed, filledAt, ExitToCash, a.units, price, fee, cash, 0.0, terminal)]))
  }

  function FillAt(a: Account, intent: Intent, signalClosed: int, filledAt: int, open: real, terminal: bool, cost: Cost): Outcome<Account, Fault>
  {
    match intent
    case EnterLong => FillEntry(a, signalClosed, filledAt, open, terminal, cost)
    case ExitToCash => FillExit(a, signalClosed, filledAt, open, terminal, cost)
    case Hold => Thrown(HoldFill)
  }

  /** The loop state before a bar: the account, the proposal awaiting the next
      open, what has been recorded, and every mark shown to the policy. */
  datatype State = State(account: Account, pending: Option<Decision>, decisions: seq<Decision>,
                         marks: seq<Mark>, equities: seq<real>)

  const INITIAL := State(Account(STARTING_CASH, 0.0, 0.0, []), None, [], [], [])

  function OpenHour(s: State, bar: Bar, cost: Cost): Outcome<State, Fault>
  {
    if s.pending.None? then Done(s) else
    var d := s.pending.value;
    if bar.start != d.closedAt then Thrown(SignalOnSourceBar) else
    var a :- FillAt(s.account, d.intent, d.closedAt, bar.start, bar.open, false, cost);
    Done(s.(account := a, pending := None))
  }

  function Equity(cash: real, units: real, close: real): real { cash + Worth(units, close) }

  function Exposure(cash: real, units: real, close: real): real
    requires units == 0.0 || Equity(cash, units, close) != 0.0
  {
    if units == 0.0 then 0.0 else Worth(units, close) / Equity(cash, units, close)
  }

  function CloseHour(s: State, bars: seq<Bar>, i: nat): Outcome<State, Fault>
    requires i < |bars|
  {
    var a := s.account;
    var close := bars[i].close;
    var closedAt := bars[i].start + 1;
    var equity := Equity(a.cash, a.units, close);
    if a.units != 0.0 && equity == 0.0 then Thrown(DivideByZero) else
    var exposure := Exposure(a.cash, a.units, close);
    if equity <= 0.0 || exposure < 0.0 || close <= 0.0 then Thrown(PolicyRejected) else
    var equities := s.equities + [equity];
    var decision := Decide(closedAt, Closes(bars, i + 1), equities, a.units > 0.0, exposure);
    if i < WARMUP then Done(s.(equities := equities))
    else Done(State(a, if decision.intent != Hold then Some(decision) else s.pending,
                    s.decisions + [decision], s.marks + [Mark(closedAt, a.cash, a.units, equity, exposure)], equities))
  }

  /** The loop state after `i` whole hours. */
  function Replay(bars: seq<Bar>, cost: Cost, i: nat): Outcome<State, Fault>
    requires i < |bars|
  {
    if i == 0 then Done(INITIAL) else
    var s :- Replay(bars, cost, i - 1);
    var filled :- OpenHour(s, bars[i - 1], cost);
    CloseHour(filled, bars, i - 1)
  }

  /** The terminal open: fill what is pending, then sell what is held. */
  function Settle(s: State, bar: Bar, cost: Cost): Outcome<State, Fault>
  {
    var filled :- OpenHour(s, bar, cost);
    if filled.account.units > 0.0 then
      var a :- FillAt(filled.account, ExitToCash, bar.start, bar.start, bar.open, true, cost);
      Done(filled.(account := a))
    else Done(filled)
  }

  function Report(s: State): Outcome<ReplayResult, Fault>
  {
    if s.pending.Some? || s.account.units != 0.0 || s.account.cash <= 0.0 then Thrown(Unsettled)
    else Done(ReplayResult(s.account.cash, s.account.units, s.account.fees, s.account.fills, s.decisions, s.marks))
  }

  function RunValid(bars: seq<Bar>, cost: Cost): Outcome<ReplayResult, Fault>
    requires bars != []
  {
    var s :- Replay(bars, cost, |bars| - 1);
    var settled :- Settle(s, bars[|bars| - 1], cost);
    Report(settled)
  }

  lemma ClosesAppend(bars: seq<Bar>, i: nat)
    requires i < |bars|
    ensures Closes(bars, i + 1) == Closes(bars, i) + [bars[i].close]
  {}

  /** A replay that has thrown stays thrown. */
  lemma {:induction false} ThrownStays(bars: seq<Bar>, cost: Cost, i: nat, j: nat)
    requires i <= j < |bars| && Replay(bars, cost, i).Thrown?
    ensures Replay(bars, cost, j) == Replay(bars, cost, i)
  {
    if i < j {
      ThrownStays(bars, cost, i, j - 1);
    }
  }

  class Ledger {
    var cash: real
    var units: real
    var totalFees: real
    var fills: seq<Fill>

    function View(): Account
      reads this
    {
      Account(cash, units, totalFees, fills)
    }

    constructor ()
      ensures View() == INITIAL.account
    {
      cash, units, totalFees, fills := STARTING_CASH, 0.0, 0.0, [];
    }

    method Execute(intent: Intent, signalClosed: int, filledAt: int, open: real, terminal: bool, cost: Cost)
      returns (fault: Option<Fault>)
      modifies this
      ensures match FillAt(old(View()), intent, signalClosed, filledAt, open, terminal, cost)
              case Done(a) => fault == None && View() == a
              case Thrown(f) => fault == Some(f)
    {
      hide FillEntry, FillExit;
      match intent {
        case EnterLong => fault := Enter(signalClosed, filledAt, open, terminal, cost);
        case ExitToCash => fault := Leave(signalClosed, filledAt, open, terminal, cost);
        case Hold => fault := Some(HoldFill);
      }
    }

    method Enter(signalClosed: int, filledAt: int, open: real, terminal: bool, cost: Cost) returns (fault: Option<Fault>)
      modifies this
      ensures match FillEntry(old(View()), signalClosed, filledAt, open, terminal, cost)
              case Done(a) => fault == None && View() == a
              case Thrown(f) => fault == Some(f)
    {
      hide Price, Fee, EntryQuantity, Worth;
      if units != 0.0 {
        return Some(EntryWhileLong);
      }
      var priced := Price(open, true, cost);
      if priced.None? {
        return Some(InvalidTerms);
      }
      var price := priced.value;
      if price == 0.0 {
        return Some(DivideByZero);
      }
      var quantity := EntryQuantity(cash, price);
      if quantity <= 0.0 {
        return Some(ZeroUnits);
      }
      var charged := Fee(quantity, price, cost);
      if charged.None? {
        return Some(InvalidTerms);
      }
      var fee := charged.value;
      cash := cash - (Worth(quantity, price) + fee);
      if cash < 0.0 {
        return Some(Borrowing);
      }
      units := quantity;
      totalFees := totalFees + fee;
      fills := fills + [Fill(signalClosed, filledAt, EnterLong, quantity, price, fee, cash, units, terminal)];
      return None;
    }

    method Leave(signalClosed: int, filledAt: int, open: real, terminal: bool, cost: Cost) returns (fault: Option<Fault>)
      modifies this
      ensures match FillExit(old(View()), signalClosed, filledAt, open, terminal, cost)
              case Done(a) => fault == None && View() == a
              case Thrown(f) => fault == Some(f)
    {
      hide Price, Fee, Worth;
      if units <= 0.0 {
        return Some(ExitInCash);
      }
      var priced := Price(open, false, cost);
      if priced.None? {
        return Some(InvalidTerms);
      }
      var price := priced.value;
      var quantity := units;
      var charged := Fee(quantity, price, cost);
      if charged.None? {
        return Some(InvalidTerms);
      }
      var fee := charged.value;
      cash := cash + (Worth(quantity, price) - fee);
      units := 0.0;
      totalFees := totalFees + fee;
      fills := fills + [Fill(signalClosed, filledAt, ExitToCash, quantity, price, fee, cash, units, terminal)];
      return None;
    }
  }

  lemma NoCloses(bars: seq<Bar>)
    ensures Closes(bars, 0) == []
  {}

  method CheckBars(bars: seq<Bar>, start: int) returns (ok: bool)
    ensures ok <==> forall i: nat :: i < |bars| ==> ValidBar(bars, start, i)
  {
    for i := 0 to |bars|
      invariant forall k: nat :: k < i ==> ValidBar(bars, start, k)
    {
      if bars[i].start != start - WARMUP + i || bars[i].open <= 0.0 ||
         (i < |bars| - 1 && (!bars[i].closed || bars[i].close <= 0.0))
      {
        assert !ValidBar(bars, start, i);
        return false;
      }
    }
    return true;
  }

  /** Fill the proposal that waited for this open, if there is one. */
  method FillPending(ledger: Ledger, pending: Option<Decision>, bar: Bar, cost: Cost, ghost s: State)
    returns (fault: Option<Fault>)
    requires s.account == ledger.View() && s.pending == pending
    modifies ledger
    ensures match OpenHour(s, bar, cost)
            case Done(t) => fault == None && t == s.(account := ledger.View(), pending := None)
            case Thrown(f) => fault == Some(f)
  {
    if pending.Some? {
      if bar.start != pending.value.closedAt {
        return Some(SignalOnSourceBar);
      }
      fault := ledger.Execute(pending.value.intent, pending.value.closedAt, bar.start, bar.open, false, cost);
    } else {
      fault := None;
    }
  }

  /** Mark the account at the close and ask the policy. */
  method MarkAndDecide(ledger: Ledger, policy: Policy, bars: seq<Bar>, i: nat, ghost s: State)
    returns (fault: Option<Fault>, mark: Mark, decision: Decision)
    requires i < |bars| && policy.Valid()
    requires s.account == ledger.View() && s.equities == policy.risk.equities
    requires policy.signal.history == Closes(bars, i)
    requires policy.signal.lastClose.Some? ==> policy.signal.lastClose.value == bars[i].start
    modifies policy.signal, policy.risk
    ensures policy.Valid()
    ensures match CloseHour(s, bars, i)
            case Thrown(f) => fault == Some(f)
            case Done(t) =>
              && fault == None
              && policy.signal.history == Closes(bars, i + 1)
              && policy.signal.lastClose == Some(bars[i].start + 1)
              && t.equities == policy.risk.equities
              && t == if i < WARMUP then s.(equities := policy.risk.equities)
                      else State(s.account, if decision.intent != Hold then Some(decision) else s.pending,
                                 s.decisions + [decision], s.marks + [mark], policy.risk.equities)
  {
    hide Decide, Equity, Exposure;
    var bar := bars[i];
    var closedAt := bar.start + 1;
    var equity := Equity(ledger.cash, ledger.units, bar.close);
    mark := Mark(closedAt, ledger.cash, ledger.units, equity, 0.0);
    decision := Decision(closedAt, 0, None, Hold, Clear, false, None);
    if ledger.units != 0.0 && equity == 0.0 {
      return Some(DivideByZero), mark, decision;
    }
    var exposure := Exposure(ledger.cash, ledger.units, bar.close);
    ClosesAppend(bars, i);
    var decided := policy.OnClosedHour(closedAt, bar.close, ledger.units > 0.0, equity, exposure);
    if decided.Rejected? {
      return Some(PolicyRejected), mark, decision;
    }
    return None, mark.(exposure := exposure), decided.value;
  }

  method Run(bars: seq<Bar>, start: int, end: int, cost: Cost) returns (r: Outcome<ReplayResult, Fault>)
    ensures r.Done? ==> ValidCost(cost) && ValidPartition(bars, start, end)
    ensures ValidCost(cost) && ValidPartition(bars, start, end) ==> r == RunValid(bars, cost)
  {
    hide Decide, OpenHour, CloseHour, FillAt;
    if !ValidCost(cost) {
      return Thrown(InvalidCost);
    }
    if start >= end {
      return Thrown(InvalidBounds);
    }
    if |bars| != WARMUP + (end - start) + 1 {
      return Thrown(WrongBarCount);
    }
    var valid := CheckBars(bars, start);
    if !valid {
      return Thrown(InvalidBars);
    }
    r := RunBars(bars, start, cost);
  }

  /** The pass over checked bars: every hour, then the terminal open. */
  method RunBars(bars: seq<Bar>, ghost start: int, cost: Cost) returns (r: Outcome<ReplayResult, Fault>)
    requires bars != [] && forall i: nat :: i < |bars| ==> ValidBar(bars, start, i)
    ensures r == RunValid(bars, cost)
  {
    hide Decide, OpenHour, CloseHour, FillAt, Closes;
    NoCloses(bars);
    var n := |bars| - 1;
    var policy := new Policy();
    var ledger := new Ledger();
    var decisions: seq<Decision>, marks: seq<Mark> := [], [];
    var pending: Option<Decision> := None;
    for i := 0 to n
      invariant policy.Valid()
      invariant policy.signal.history == Closes(bars, i)
      invariant policy.signal.lastClose == if i == 0 then None else Some(bars[i - 1].start + 1)
      invariant Replay(bars, cost, i) == Done(State(ledger.View(), pending, decisions, marks, policy.risk.equities))
    {
      ghost var before := State(ledger.View(), pending, decisions, marks, policy.risk.equities);
      assert ValidBar(bars, start, i);
      assert i > 0 ==> ValidBar(bars, start, i - 1);
      var fault := FillPending(ledger, pending, bars[i], cost, before);
      if fault.Some? {
        ThrownStays(bars, cost, i + 1, n);
        return Thrown(fault.value);
      }
      pending := None;
      ghost var filled := before.(account := ledger.View(), pending := None);
      assert Replay(bars, cost, i + 1) == CloseHour(filled, bars, i);
      var mark, decision;
      fault, mark, decision := MarkAndDecide(ledger, policy, bars, i, filled);
      if fault.Some? {
        ThrownStays(bars, cost, i + 1, n);
        return Thrown(fault.value);
      }
      if i >= WARMUP {
        marks := marks + [mark];
        decisions := decisions + [decision];
        if decision.intent != Hold {
          pending := Some(decision);
        }
      }
    }
    var last := bars[n];
    ghost var before := State(ledger.View(), pending, decisions, marks, policy.risk.equities);
    var fault := FillPending(ledger, pending, last, cost, before);
    if fault.Some? {
      return Thrown(fault.value);
    }
    pending := None;
    if ledger.units > 0.0 {
      fault := ledger.Execute(ExitToCash, last.start, last.start, last.open, true, cost);
      if fault.Some? {
        return Thrown(fault.value);
      }
    }
    if pending.Some? || ledger.units != 0.0 || ledger.cash <= 0.0 {
      return Thrown(Unsettled);
    }
    return Done(ReplayResult(ledger.cash, ledger.units, ledger.totalFees, ledger.fills, decisions, marks));
  }
}
