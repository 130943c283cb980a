/** Commit-then-deliver: broker executions are committed to a durable ledger
    before they are delivered to the running engine.  The broker appends at any
    moment, a delivery or its acknowledgement may be lost, and the reconciler
    may die before any durable effect. */
module Delivery {
  import opened Exact

  datatype Execution = Execution(id: string, quantity: real, price: real, fee: real)
  datatype Report = Report(revision: int, cash: real, holding: real, executions: seq<Execution>)
  datatype Ledger = Ledger(revision: int, broker: string, cash: real, holding: real, executions: seq<Execution>)
  datatype Account = Account(broker: string, cash: real, holding: real, orderQuantity: real)
  datatype Engine = Engine(cash: real, holding: real, openOrders: int, openBroker: Option<string>)

  datatype Decision = Unreported | Mismatch | Suppress | Sequence | Deliver | Failed | Died
  datatype Answer = BlockUnreported | BlockSequence | BlockMismatch | BlockEngineMismatch | BlockInterrupted | BlockReportChanged
                  | AlreadyApplied | AppliedFromCommitted | AppliedAfterCommit | Thrown | Dead

  /** What becomes of one delivery call: applied and acknowledged, acknowledged
      but not applied, lost with an error, or applied with the error of a lost
      acknowledgement. */
  datatype Fate = Applied | Ignored | Lost | Unacknowledged

  /** Everything outside the reconciler during one call: what the broker appends
      before each port is used, the fate of a delivery, and how many durable
      effects the process still takes. */
  datatype Weather = Weather(first: seq<Execution>, second: seq<Execution>, third: seq<Execution>, fourth: seq<Execution>,
                             fate: Fate, fuel: nat)

  const Calm := Weather([], [], [], [], Applied, 3)

  /** The process dies between writing a ledger replacement and moving it into place. */
  const Torn := Calm.(fuel := 1)

  function Quantities(s: seq<Execution>): real
  {
    if s == [] then 0.0 else Quantities(s[..|s| - 1]) + s[|s| - 1].quantity
  }

  function Cost(e: Execution): real { e.quantity * e.price + e.fee }

  function Costs(s: seq<Execution>): real
  {
    if s == [] then 0.0 else Costs(s[..|s| - 1]) + Cost(s[|s| - 1])
  }

  /** The engine after exactly these executions. */
  function Expected(a: Account, s: seq<Execution>): Engine
  {
    var holding := a.holding + Quantities(s);
    Engine(a.cash - Costs(s), holding, if holding < a.orderQuantity then 1 else 0,
           if holding < a.orderQuantity then Some(a.broker) else None)
  }

  predicate Appendable(s: seq<Execution>, e: Execution)
  {
    e.quantity > 0.0 && forall i :: 0 <= i < |s| ==> s[i].id != e.id
  }

  predicate ReportOk(a: Account, r: Report)
  {
    && r.revision == |r.executions| + 1 && r.holding == a.holding + Quantities(r.executions) && r.cash == a.cash - Costs(r.executions)
    && (forall i :: 0 <= i < |r.executions| ==> r.executions[i].quantity > 0.0)
    && forall i, j :: 0 <= i < j < |r.executions| ==> r.executions[i].id != r.executions[j].id
  }

  predicate LedgerOk(a: Account, l: Ledger, r: Report)
  {
    && l.broker == a.broker && 1 <= |l.executions| && l.executions <= r.executions
    && l.revision == |l.executions| + 1 && l.holding == a.holding + Quantities(l.executions) && l.cash == a.cash - Costs(l.executions)
  }

  /** The position of an execution in a report. */
  function IndexOf(s: seq<Execution>, id: string): (r: Option<nat>)
    ensures r.Some? ==> r.value < |s| && s[r.value].id == id && forall k :: 0 <= k < r.value ==> s[k].id != id
    ensures r.None? ==> forall k :: 0 <= k < |s| ==> s[k].id != id
  {
    if s == [] then None
    else
      var front := IndexOf(s[..|s| - 1], id);
      if front.Some? then front else if s[|s| - 1].id == id then Some(|s| - 1) else None
  }

  /** What a report becomes when the broker appends every execution that is new and positive. */
  function Grown(s: seq<Execution>, arrivals: seq<Execution>): seq<Execution>
  {
    if arrivals == [] then s
    else
      var n := |arrivals| - 1;
      var before := Grown(s, arrivals[..n]);
      if Appendable(before, arrivals[n]) then before + [arrivals[n]] else before
  }

  /** A report stays sound when one new positive execution is appended to it. */
  lemma GrownOk(a: Account, r: Report, e: Execution)
    requires ReportOk(a, r) && Appendable(r.executions, e)
    ensures ReportOk(a, Report(r.revision + 1, r.cash - Cost(e), r.holding + e.quantity, r.executions + [e]))
  {
    hide Cost;
    assert (r.executions + [e])[..|r.executions|] == r.executions;
  }

  /** An identifier is in a ledger exactly when its position is. */
  lemma CommittedExactly(a: Account, r: Report, l: Ledger, index: nat)
    requires ReportOk(a, r) && LedgerOk(a, l, r) && index < |r.executions|
    ensures (exists k :: 0 <= k < |l.executions| && l.executions[k].id == r.executions[index].id) <==> index < |l.executions|
  {
    hide Quantities, Costs;
    if index < |l.executions| {
      assert l.executions[index] == r.executions[index];
    } else {
      forall k | 0 <= k < |l.executions|
        ensures l.executions[k].id != r.executions[index].id
      {
        assert l.executions[k] == r.executions[k];
      }
    }
  }

  lemma LastExactly(a: Account, r: Report, index: nat)
    requires ReportOk(a, r) && index < |r.executions|
    ensures r.executions[|r.executions| - 1].id == r.executions[index].id <==> index == |r.executions| - 1
  {
    hide Quantities, Costs;
  }

  lemma LedgerInside(a: Account, l: Ledger, r: Report)
    requires LedgerOk(a, l, r)
    ensures |l.executions| <= |r.executions|
  {
    hide Quantities, Costs;
  }

  lemma PositiveReport(a: Account, r: Report)
    requires ReportOk(a, r)
    ensures forall i :: 0 <= i < |r.executions| ==> r.executions[i].quantity > 0.0
  {
    hide Quantities, Costs;
  }

  /** A report with no more executions is the same report. */
  lemma SameReport(a: Account, r: Report, u: Report)
    requires ReportOk(a, r) && ReportOk(a, u) && r.executions <= u.executions
    ensures |r.executions| == |u.executions| ==> r == u
  {
    hide Quantities, Costs;
    if |r.executions| == |u.executions| {
      assert r.executions == u.executions;
    }
  }

  /** An identifier found before the end is not that of the last execution. */
  lemma LastIs(a: Account, r: Report, id: string)
    requires ReportOk(a, r) && r.executions != []
    ensures r.executions[|r.executions| - 1].id == id ==> IndexOf(r.executions, id) == Some(|r.executions| - 1)
  {
    hide Quantities, Costs;
  }

  /** The position of an identifier is the only one that has it, also after appends. */
  lemma IndexStays(a: Account, r: Report, s: seq<Execution>, index: nat)
    requires ReportOk(a, r) && s <= r.executions && index < |s|
    ensures IndexOf(r.executions, s[index].id) == Some(index)
  {
    hide Quantities, Costs;
    var at := IndexOf(r.executions, s[index].id);
    assert r.executions[index] == s[index];
  }

  // ----- distinct prefixes leave distinct engines

  lemma {:induction false} QuantitiesGrow(s: seq<Execution>, i: nat, j: nat)
    requires i < j <= |s| && forall k :: 0 <= k < |s| ==> s[k].quantity > 0.0
    ensures Quantities(s[..i]) < Quantities(s[..j])
    decreases j
  {
    assert s[..j][..j - 1] == s[..j - 1];
    if i < j - 1 {
      QuantitiesGrow(s, i, j - 1);
    }
  }

  lemma ExpectedDistinct(a: Account, s: seq<Execution>, i: nat, j: nat)
    requires i <= |s| && j <= |s| && forall k :: 0 <= k < |s| ==> s[k].quantity > 0.0
    ensures Expected(a, s[..i]) == Expected(a, s[..j]) ==> i == j
  {
    hide Costs, Quantities;
    if i < j {
      QuantitiesGrow(s, i, j);
    } else if j < i {
      QuantitiesGrow(s, j, i);
    }
  }

  /** One more execution takes the engine from one expected state to the next. */
  lemma ExpectedStep(a: Account, s: seq<Execution>, k: nat)
    requires k < |s|
    ensures Quantities(s[..k + 1]) == Quantities(s[..k]) + s[k].quantity && Costs(s[..k + 1]) == Costs(s[..k]) + Cost(s[k])
  {
    assert s[..k + 1][..k] == s[..k];
  }

  class Venue {
    const account: Account
    var report: Report
    var ledger: Ledger
    /** A ledger replacement was written but not moved into place. */
    var leftover: bool
    var engine: Engine
    ghost var delivered: nat

    /** The engine has had exactly the first `delivered` executions of the
        report, each once and in order; the ledger is a prefix of the report and
        at most one execution ahead of the engine. */
    ghost predicate Valid()
      reads this
    {
      Sound() && |ledger.executions| <= delivered + 1
    }

    /** The same without the bound on how far the ledger leads. */
    ghost predicate Sound()
      reads this
    {
      && ReportOk(account, report) && LedgerOk(account, ledger, report)
      && delivered <= |ledger.executions|
      && engine == Expected(account, report.executions[..delivered])
    }

    /** A venue set up with its first executions committed and applied. */
    constructor (account: Account, executions: seq<Execution>)
      requires executions != []
      requires forall i :: 0 <= i < |executions| ==> executions[i].quantity > 0.0
      requires forall i, j :: 0 <= i < j < |executions| ==> executions[i].id != executions[j].id
      ensures Valid() && this.account == account && report.executions == ledger.executions == executions && delivered == |executions| && !leftover
    {
      this.account := account;
      report := Report(|executions| + 1, account.cash - Costs(executions), account.holding + Quantities(executions), executions);
      ledger := Ledger(|executions| + 1, account.broker, account.cash - Costs(executions), account.holding + Quantities(executions), executions);
      engine := Expected(account, executions);
      delivered, leftover := |executions|, false;
      new;
      assert executions[..|executions|] == executions;
    }

    /** The broker appends to its report; nothing else moves. */
    method Append(arrivals: seq<Execution>)
      requires Sound()
      modifies this`report
      ensures Sound() && report.executions == Grown(old(report).executions, arrivals) && (arrivals == [] ==> report == old(report))
      ensures old(report).executions <= report.executions
    {
      hide Quantities, Costs, Cost, Expected, ReportOk, Appendable;
      for i := 0 to |arrivals|
        invariant Sound() && old(report).executions <= report.executions && (i == 0 ==> report == old(report))
        invariant report.executions == Grown(old(report).executions, arrivals[..i])
      {
        var e := arrivals[i];
        assert arrivals[..i + 1][..i] == arrivals[..i];
        if Appendable(report.executions, e) {
          var more := report.executions + [e];
          GrownOk(account, report, e);
          assert more[..delivered] == report.executions[..delivered];
          report := Report(report.revision + 1, report.cash - Cost(e), report.holding + e.quantity, more);
        }
      }
      assert arrivals[..|arrivals|] == arrivals;
    }

    /** Screen any execution against the report and the ledger, and commit it when it is the next. */
    method Screen(e: Execution, arrivals: seq<Execution>, fuel: nat) returns (d: Decision, left: nat)
      requires Sound()
      modifies this`report, this`ledger, this`leftover
      ensures Sound() && old(report).executions <= report.executions && (arrivals == [] ==> report == old(report))
      ensures left <= fuel <= left + 2 && (d == Decision.Deliver ==> fuel == left + 2)
      ensures var at := IndexOf(old(report).executions, e.id);
        var known := at.Some? && old(report).executions[at.value] == e;
        var next := known && at.value == |old(ledger).executions| && |old(report).executions| == at.value + 1;
        && (d == Unreported <==> at.None?)
        && (d == Mismatch <==> at.Some? && !known)
        && (d == Suppress <==> known && at.value < |old(ledger).executions|)
        && (old(leftover) && next ==> d == Failed)
        && (d == Sequence <==> known && at.value >= |old(ledger).executions| && !next)
        && (d == Suppress ==> left == fuel && ledger == old(ledger) && leftover == old(leftover))
        && (ledger != old(ledger) ==> next && ledger.executions == old(report).executions)
        && (d == Decision.Deliver ==> next && ledger.executions == old(report).executions && !leftover)
        && (old(leftover) ==> leftover && ledger == old(ledger))
        && (fuel >= 2 && arrivals == [] ==> (d == Decision.Deliver <==> next && !old(leftover)))
        && (fuel == 1 ==> (leftover <==> old(leftover) || next) && ledger == old(ledger) && d != Decision.Deliver)
    {
      hide Quantities, Costs, Expected;
      left := fuel;
      var current := report;
      var found := IndexOf(current.executions, e.id);
      if found.None? {
        return Unreported, left;
      }
      if current.executions[found.value] != e {
        return Mismatch, left;
      }
      CommittedExactly(account, current, ledger, found.value);
      if exists k :: 0 <= k < |ledger.executions| && ledger.executions[k].id == e.id {
        return Suppress, left;
      }
      LastExactly(account, current, found.value);
      if |ledger.executions| + 1 != |current.executions| || current.executions[|current.executions| - 1].id != e.id {
        return Sequence, left;
      }
      if leftover {
        return Failed, left;
      }
      if left == 0 {
        return Decision.Died, left;
      }
      left := left - 1;
      leftover := true;
      if left == 0 {
        return Decision.Died, left;
      }
      left := left - 1;
      ledger := Ledger(current.revision, account.broker, current.cash, current.holding, current.executions);
      leftover := false;
      Append(arrivals);
      if |report.executions| != |current.executions| {
        return Failed, left;
      }
      return Decision.Deliver, left;
    }

    /** The engine applies one execution. */
    method Apply(e: Execution, final: bool)
      requires Valid() && delivered < |ledger.executions| && report.executions[delivered] == e
      requires final <==> !(account.holding + Quantities(report.executions[..delivered + 1]) < account.orderQuantity)
      modifies this`engine, this`delivered
      ensures Valid() && delivered == old(delivered) + 1
    {
      hide Quantities, Costs;
      ExpectedStep(account, report.executions, delivered);
      engine := Engine(engine.cash - (e.quantity * e.price + e.fee), engine.holding + e.quantity, if final then 0 else 1,
                       if final then None else Some(account.broker));
      delivered := delivered + 1;
    }

    /** An execution is the only one that is missing, in the ledger as well. */
    ghost predicate NextIs(id: string)
      reads this
    {
      && |report.executions| == delivered + 1 && |ledger.executions| == delivered
      && report.executions[delivered].id == id
    }

    /** Bring one execution to the engine: check the engine, commit, deliver, and check again. */
    method Reconcile(id: string, w: Weather) returns (r: Answer)
      requires Valid()
      modifies this
      ensures Valid() && old(report).executions <= report.executions
      ensures old(delivered) <= delivered <= old(delivered) + 1
      ensures r in {AppliedFromCommitted, AppliedAfterCommit} ==> delivered == old(delivered) + 1
      ensures r == AlreadyApplied ==> delivered == old(delivered)
      // a report two executions ahead of the engine is never caught up with
      ensures |old(report).executions| >= old(delivered) + 2 ==> delivered == old(delivered) && ledger == old(ledger) && engine == old(engine)
      // a leftover ledger replacement is never removed, and no later execution is committed
      ensures old(leftover) ==> leftover && ledger == old(ledger) && (old(delivered) == |old(ledger).executions| ==> engine == old(engine))
      // a call that dies there leaves one exactly when it was about to commit the execution it names
      ensures w == Torn ==> (leftover <==> old(leftover) || old(NextIs(id))) && ledger == old(ledger)
      ensures w == Torn && old(NextIs(id)) ==> delivered == old(delivered) && engine == old(engine)
      // undisturbed, the call delivers exactly when it names the only missing execution and no ledger write was left over
      ensures w == Calm ==>
        (delivered == old(delivered) + 1 <==>
           && |old(report).executions| == old(delivered) + 1
           && old(report).executions[old(delivered)].id == id
           && (|old(ledger).executions| == old(delivered) ==> !old(leftover)))
      // and what it answers
      ensures w == Calm ==>
        var s, at := old(report).executions, IndexOf(old(report).executions, id);
        r == if at.None? then BlockUnreported
             else if at.value + 1 != |s| then BlockSequence
             else if at.value + 1 != old(delivered) && at.value != old(delivered) then BlockEngineMismatch
             else if at.value + 1 == old(delivered) then AlreadyApplied
             else if |old(ledger).executions| > old(delivered) then AppliedFromCommitted
             else if old(leftover) then Thrown else AppliedAfterCommit
    {
      hide Quantities, Costs, Cost, Expected, ReportOk, LedgerOk, Grown;
      Append(w.first);
      var index := IndexOf(report.executions, id);
      if index.None? {
        return BlockUnreported;
      }
      if index.value != |report.executions| - 1 {
        LastIs(account, report, id);
        return BlockSequence;
      }
      var n := index.value;
      var before, after := Expected(account, report.executions[..n]), Expected(account, report.executions[..n + 1]);
      var observed := engine;
      PositiveReport(account, report);
      LedgerInside(account, ledger, report);
      ExpectedDistinct(account, report.executions, delivered, n);
      ExpectedDistinct(account, report.executions, delivered, n + 1);
      ExpectedDistinct(account, report.executions, n, n + 1);
      if observed != before && observed != after {
        return BlockEngineMismatch;
      }
      r := CommitLast(n, after, observed == after, w);
    }

    /** Commit the last reported execution, which the engine had or is to have next, and bring it. */
    method CommitLast(n: nat, after: Engine, applied: bool, w: Weather) returns (r: Answer)
      requires Valid() && n + 1 == |report.executions| && delivered == (if applied then n + 1 else n)
      requires after == Expected(account, report.executions[..n + 1])
      modifies this
      ensures Valid() && old(report).executions <= report.executions
      ensures old(delivered) <= delivered <= old(delivered) + 1
      ensures r in {AppliedFromCommitted, AppliedAfterCommit} ==> delivered == old(delivered) + 1
      ensures r == AlreadyApplied || applied ==> delivered == old(delivered)
      ensures old(leftover) ==> leftover && ledger == old(ledger) && (old(delivered) == |old(ledger).executions| ==> engine == old(engine))
      ensures w == Torn ==>
        (leftover <==> old(leftover) || (!applied && |old(ledger).executions| == n)) && ledger == old(ledger)
        && (|old(ledger).executions| == n ==> delivered == old(delivered) && engine == old(engine))
      ensures w == Calm ==>
        (delivered == old(delivered) + 1 <==> !applied && (|old(ledger).executions| == n ==> !old(leftover)))
      ensures w == Calm ==>
        r == if applied then AlreadyApplied else if |old(ledger).executions| > n then AppliedFromCommitted
             else if old(leftover) then Thrown else AppliedAfterCommit
    {
      hide Quantities, Costs, Cost, Expected, ReportOk, LedgerOk, Grown;
      var broker := report;
      var execution := broker.executions[n];
      Append(w.second);
      IndexStays(account, report, broker.executions, n);
      LedgerInside(account, ledger, broker);
      var decision, fuel := Screen(execution, w.third, w.fuel);
      if decision != Decision.Deliver && decision != Suppress {
        return Blocked(decision);
      }
      if applied {
        return AlreadyApplied;
      }
      if fuel == 0 {
        return Dead;
      }
      assert report.executions[..n + 1] == broker.executions[..n + 1];
      r := Bring(broker, n, after, decision == Suppress, w);
    }

    /** Deliver the committed execution and compare the engine and the report again. */
    method Bring(broker: Report, n: nat, after: Engine, committed: bool, w: Weather) returns (r: Answer)
      requires Valid() && delivered == n < |ledger.executions| && n + 1 == |broker.executions|
      requires ReportOk(account, broker) && broker.executions <= report.executions && after == Expected(account, report.executions[..n + 1])
      modifies this`report, this`engine, this`delivered
      ensures Valid() && old(report).executions <= report.executions
      ensures delivered == if w.fate in {Applied, Unacknowledged} then n + 1 else n
      ensures w.fate in {Lost, Unacknowledged} ==> r == BlockInterrupted
      ensures w.fate == Ignored ==> r == BlockEngineMismatch
      ensures w.fate == Applied ==>
        r == if |report.executions| != n + 1 then BlockReportChanged else if committed then AppliedFromCommitted else AppliedAfterCommit
      ensures w.fourth == [] ==> report == old(report)
    {
      hide Quantities, Costs, Cost, Expected;
      var execution := broker.executions[n];
      ExpectedFinal(account, report.executions[..n + 1]);
      ExpectedDistinct(account, report.executions, n, n + 1);
      if w.fate == Applied || w.fate == Unacknowledged {
        Apply(execution, after.openOrders == 0);
      }
      if w.fate == Lost || w.fate == Unacknowledged {
        return BlockInterrupted;
      }
      if engine != after {
        return BlockEngineMismatch;
      }
      Append(w.fourth);
      SameReport(account, broker, report);
      if report.revision != broker.revision || report.cash != broker.cash || report.holding != broker.holding
         || |report.executions| != |broker.executions| || report.executions[|report.executions| - 1] != execution {
        return BlockReportChanged;
      }
      return if committed then AppliedFromCommitted else AppliedAfterCommit;
    }
  }

  function Blocked(d: Decision): Answer
  {
    match d
    case Unreported => BlockUnreported
    case Mismatch => BlockMismatch
    case Sequence => BlockSequence
    case Died => Dead
    case _ => Thrown
  }

  lemma ExpectedFinal(a: Account, s: seq<Execution>)
    ensures Expected(a, s).openOrders == 0 <==> !(a.holding + Quantities(s) < a.orderQuantity)
  {}

  /** Any sequence of calls, each in any weather: the engine never gets an
      execution twice, never out of order, and never one that is not committed;
      once the report is two executions ahead, nothing is delivered ever again;
      and once a ledger replacement is left over, nothing is committed ever again,
      so that nothing more is delivered than the ledger then held. */
  method ReconcileAll(v: Venue, calls: seq<(string, Weather)>)
    requires v.Valid()
    modifies v
    ensures v.Valid() && old(v.report).executions <= v.report.executions
    ensures old(v.delivered) <= v.delivered <= old(v.delivered) + |calls|
    ensures |old(v.report).executions| >= old(v.delivered) + 2 ==>
      v.delivered == old(v.delivered) && v.engine == old(v.engine) && v.ledger == old(v.ledger)
    ensures old(v.leftover) ==> v.leftover && v.ledger == old(v.ledger) && v.delivered <= |old(v.ledger).executions|
    ensures old(v.leftover) && old(v.delivered) == |old(v.ledger).executions| ==>
      v.delivered == old(v.delivered) && v.engine == old(v.engine)
  {
    for i := 0 to |calls|
      invariant v.Valid() && old(v.report).executions <= v.report.executions
      invariant old(v.delivered) <= v.delivered <= old(v.delivered) + i
      invariant |old(v.report).executions| >= old(v.delivered) + 2 ==>
        v.delivered == old(v.delivered) && v.engine == old(v.engine) && v.ledger == old(v.ledger)
      invariant old(v.leftover) ==> v.leftover && v.ledger == old(v.ledger)
      invariant old(v.leftover) && old(v.delivered) == |old(v.ledger).executions| ==>
        v.delivered == old(v.delivered) && v.engine == old(v.engine)
    {
      var r := v.Reconcile(calls[i].0, calls[i].1);
    }
  }

  /** Such a venue is reached by two appends between calls: from then on no
      sequence of calls delivers the second execution. */
  method TwoAhead(account: Account, a: Execution, b: Execution, c: Execution, calls: seq<(string, Weather)>) returns (v: Venue)
    requires a.quantity > 0.0 && b.quantity > 0.0 && c.quantity > 0.0
    requires a.id != b.id && a.id != c.id && b.id != c.id
    ensures fresh(v) && v.Valid() && v.delivered == 1 && [a, b, c] <= v.report.executions && v.ledger.executions == [a]
  {
    hide Quantities, Costs, Cost, Expected;
    v := new Venue(account, [a]);
    v.Append([b, c]);
    TwoAppended(a, b, c);
    ReconcileAll(v, calls);
  }

  /** The other such venue is reached by one death: with the replacement left
      over, no sequence of calls delivers the execution it was written for. */
  method LeftOver(account: Account, a: Execution, b: Execution, calls: seq<(string, Weather)>) returns (v: Venue)
    requires a.quantity > 0.0 && b.quantity > 0.0 && a.id != b.id
    ensures fresh(v) && v.Valid() && v.leftover && v.delivered == 1 && [a, b] <= v.report.executions && v.ledger.executions == [a]
  {
    hide Quantities, Costs, Cost, Expected;
    v := new Venue(account, [a]);
    v.Append([b]);
    OneAppended(a, b);
    var died := v.Reconcile(b.id, Torn);
    ReconcileAll(v, calls);
  }

  lemma OneAppended(a: Execution, b: Execution)
    requires b.quantity > 0.0 && a.id != b.id
    ensures Grown([a], [b]) == [a, b]
  {
    assert [b][..0] == [];
    assert Grown([a], []) == [a];
  }

  lemma TwoAppended(a: Execution, b: Execution, c: Execution)
    requires b.quantity > 0.0 && c.quantity > 0.0 && a.id != b.id && a.id != c.id && b.id != c.id
    ensures Grown([a], [b, c]) == [a, b, c]
  {
    assert [b, c][..1] == [b];
    OneAppended(a, b);
  }

  // ----- the engine in plain sums

  function Traded(s: seq<Execution>): real
  {
    if s == [] then 0.0 else Traded(s[..|s| - 1]) + s[|s| - 1].quantity * s[|s| - 1].price
  }

  function Moved(s: seq<Execution>): real { if s == [] then 0.0 else Moved(s[..|s| - 1]) + s[|s| - 1].quantity }

  function Charged(s: seq<Execution>): real { if s == [] then 0.0 else Charged(s[..|s| - 1]) + s[|s| - 1].fee }

  lemma {:induction false} CostsSplit(s: seq<Execution>)
    ensures Costs(s) == Traded(s) + Charged(s) && Quantities(s) == Moved(s)
  {
    if s != [] {
      CostsSplit(s[..|s| - 1]);
    }
  }

  /** The engine has paid for the executions it had and their fees, holds what
      they moved, and has an open order exactly while less than its quantity is held. */
  ghost predicate EngineTold(g: Engine, a: Account, had: seq<Execution>)
  {
    && g.cash == a.cash - Traded(had) - Charged(had) && g.holding == a.holding + Moved(had)
    && (g.openOrders == 1 <==> g.holding < a.orderQuantity) && (g.openOrders == 0 <==> g.holding >= a.orderQuantity)
    && g.openBroker == (if g.holding < a.orderQuantity then Some(a.broker) else None)
  }

  /** So do report and ledger: the account after all they list. */
  lemma AccountsTold(v: Venue)
    requires v.Sound()
    ensures EngineTold(v.engine, v.account, v.report.executions[..v.delivered])
    ensures v.report.cash == v.account.cash - Traded(v.report.executions) - Charged(v.report.executions)
    ensures v.report.holding == v.account.holding + Moved(v.report.executions) && v.report.revision == |v.report.executions| + 1
    ensures v.ledger.cash == v.account.cash - Traded(v.ledger.executions) - Charged(v.ledger.executions)
    ensures v.ledger.holding == v.account.holding + Moved(v.ledger.executions) && v.ledger.revision == |v.ledger.executions| + 1
    ensures v.ledger.executions <= v.report.executions && v.ledger.broker == v.account.broker
  {
    hide Costs, Quantities, Traded, Moved, Charged;
    CostsSplit(v.report.executions);
    CostsSplit(v.ledger.executions);
    CostsSplit(v.report.executions[..v.delivered]);
  }

  /** What the invariant says of each execution of the report. */
  lemma ExactlyOnce(v: Venue, i: nat)
    requires v.Valid() && i < |v.report.executions|
    ensures v.engine == Expected(v.account, v.report.executions[..v.delivered])
    ensures i < v.delivered ==> v.report.executions[i] in v.ledger.executions
    ensures v.delivered <= |v.ledger.executions| <= v.delivered + 1 && v.ledger.executions <= v.report.executions
    ensures forall k: nat :: k <= |v.report.executions| && v.engine == Expected(v.account, v.report.executions[..k]) ==> k == v.delivered
  {
    hide Quantities, Costs, Expected;
    forall k: nat | k <= |v.report.executions| && v.engine == Expected(v.account, v.report.executions[..k])
      ensures k == v.delivered
    {
      ExpectedDistinct(v.account, v.report.executions, k, v.delivered);
    }
    if i < v.delivered {
      assert v.ledger.executions[i] == v.report.executions[i];
    }
  }
}
