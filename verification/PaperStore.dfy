/** The store itself: one object per authority database, one method per
    transaction, each proved to take exactly its step. */
module PaperStore {
  import opened Exact
  import opened PaperAuthority
  import opened PaperInvariant

  /** The validation of an intent against the product rules; the value checks run in the program's order. */
  method Validate(r: Rules, t: Terms) returns (ok: bool)
    ensures ok <==> Accepts(r, t)
  {
    if r.instrument == "" || r.revision == "" || r.revision == "unversioned" || t.instrument != r.instrument {
      return false;
    }
    if r.baseIncrement <= 0.0 || r.quoteIncrement <= 0.0 || r.baseMin <= 0.0 || r.quoteMin <= 0.0 {
      return false;
    }
    var steps, ticks := (t.quantity / r.baseIncrement).Floor as real, (t.limit / r.quoteIncrement).Floor as real;
    if steps * r.baseIncrement != t.quantity || ticks * r.quoteIncrement != t.limit {
      return false;
    }
    return t.quantity >= r.baseMin && t.quantity * t.limit >= r.quoteMin;
  }

  /** Whether anything but blanks is in a name. */
  method HasText(s: string) returns (ok: bool)
    ensures ok <==> !Blank(s)
  {
    for i := 0 to |s|
      invariant forall k :: 0 <= k < i ==> s[k] in " \t\n\r"
    {
      if s[i] !in {' ', '\t', '\n', '\r'} {
        return true;
      }
    }
    return false;
  }

  /** The sizing of a purchase or a sale. */
  method CheckSizing(p: Proposal) returns (ok: bool)
    requires p.limit > 0.0
    ensures ok <==> SizingOk(p)
  {
    if p.side == Buy {
      var budget := p.equity * 0.25;
      if p.risk != 0 || p.halted || p.target != 0.25 || p.units != 0.0 || p.cash < budget {
        return false;
      }
      var scaled := budget / p.limit * 100000000.0;
      var sized := (if scaled >= 0.0 then scaled.Floor else -((-scaled).Floor)) as real / 100000000.0;
      return p.quantity == sized && p.quantity * p.limit <= p.cash;
    }
    return p.target == 0.0 && p.units > 0.0 && p.quantity == p.units && (p.risk == 1) == p.halted;
  }

  /** The bridge's validation of a proposal. */
  method CheckProposal(p: Proposal, observed: int, source: Revision, rules: Rules) returns (ok: bool)
    ensures ok <==> ProposalOk(p, observed, source, rules)
  {
    hide SizingOk, Accepts, Blank;
    if p.policy != "H1-v1" || p.signal != p.open || observed != p.open || p.source != source {
      return false;
    }
    var experiment := HasText(p.experiment);
    var instrument := HasText(p.instrument);
    if !experiment || !instrument || p.closedHours < 168 || p.risk !in {0, 1} {
      return false;
    }
    if p.decision != (match p.side case Buy => 1 case Sell => 2) || p.client != H1Id(p.experiment, p.instrument, p.signal, p.side) {
      return false;
    }
    if p.limit <= 0.0 || p.equity <= 0.0 || p.cash < 0.0 || p.units < 0.0 {
      return false;
    }
    var sized := CheckSizing(p);
    var terms := Terms(p.client, p.instrument, p.side, p.quantity, p.limit, source);
    if !sized || terms.source == Plain("") || terms.quantity <= 0.0 || terms.instrument == "" {
      return false;
    }
    ok := Validate(rules, terms);
  }

  /** The account, the place and the hour a successor must continue. */
  method CheckContinued(p: Proposal, r: Report, next: Proposal) returns (ok: bool)
    ensures ok <==> Continues(p, r, next)
  {
    return next.open == p.open + 1 && next.instrument == p.instrument && next.experiment == p.experiment
      && next.source == OfReport(r) && next.cash == r.cash && next.units == r.holding && next.equity == r.cash + r.holding * next.limit;
  }

  /** The stored rows that a guarded claim must name. */
  method CheckClaim(row: IntentRow, saved: ProposalRow, next: ClientId, g: Guarded) returns (ok: bool)
    ensures ok <==> ClaimFits(row, saved, next, g)
  {
    if saved.opening != g.opening || saved.proposal != g.proposal || saved.rules != g.rules {
      return false;
    }
    return g.terms.client == next && row.terms.source == g.terms.source && row.rules == g.rules;
  }

  /** The pair of broker snapshots around a handoff; `None` is a refusal. */
  method ReadPair(before: Option<Snapshot>, after: Option<Snapshot>, r: Report, opening: int) returns (evidence: Option<Snapshot>)
    ensures evidence == StablePair(before, after, r, opening)
  {
    hide Blank;
    if before.None? || after.None? || before.value != after.value {
      return None;
    }
    var s := before.value;
    var token := HasText(s.token);
    if s.version != 1 || s.origin != "synthetic-local-broker" || !token || s.accountRevision != s.token || s.ordersRevision != s.token
       || s.executionsRevision != s.token || s.observed != opening {
      return None;
    }
    if s.client != r.client || s.broker != r.broker || s.status != r.status || s.revision != r.revision || s.reference != OfReport(r)
       || s.cash != r.cash || s.holding != r.holding || s.openOrders != [] || s.finality != "terminal_at_cursor" {
      return None;
    }
    return Some(s);
  }

  /** Read the complete executions of a report onto the opening account; `None` is an invalid or repeated execution. */
  method ReadExecutions(side: Side, entries: seq<Execution>, openingCash: real, openingUnits: real) returns (r: Option<(real, real, real)>)
    ensures r.Some? <==> ExecutionsOk(entries)
    ensures r.Some? ==> r.value == (Quantities(entries), openingCash + CashFlows(side, entries), openingUnits + HoldingFlows(side, entries))
  {
    var filled, cash, holding: real, seen: set<string> := 0.0, openingCash, openingUnits, {};
    for i := 0 to |entries|
      invariant ExecutionsOk(entries[..i])
      invariant forall id :: id in seen <==> exists k :: 0 <= k < i && entries[k].id == id
      invariant filled == Quantities(entries[..i]) && cash == openingCash + CashFlows(side, entries[..i])
      invariant holding == openingUnits + HoldingFlows(side, entries[..i])
    {
      hide CashFlow;
      var e := entries[i];
      assert entries[..i + 1][..i] == entries[..i];
      if e.id == "" || e.id in seen || e.quantity <= 0.0 || e.price <= 0.0 || e.fee < 0.0 {
        assert entries[i] == e;
        return None;
      }
      seen := seen + {e.id};
      filled := filled + e.quantity;
      var traded := e.quantity * e.price;
      FlowIs(side, e, traded);
      cash := if side == Buy then cash - traded - e.fee else cash + traded - e.fee;
      holding := if side == Buy then holding + e.quantity else holding - e.quantity;
    }
    assert entries[..|entries|] == entries;
    return Some((filled, cash, holding));
  }

  lemma PrepareStep(v: View, t: Terms, r: Rules)
    ensures Apply(v, Step.Prepare(t, r)) == Preparing(v, t, r)
  {
    hide Preparing;
  }

  lemma ReconcileStep(v: View, p: Proposal, r: Report)
    ensures Apply(v, Step.Reconcile(p, r)) == Reconciling(v, p, r)
  {
    hide Reconciling;
  }

  lemma FlowIs(side: Side, e: Execution, traded: real)
    requires traded == e.quantity * e.price
    ensures CashFlow(side, e) == (if side == Buy then -traded else traded) - e.fee
  {}

  /** Every check of a report that needs no stored row. */
  method CheckReport(p: Proposal, r: Report) returns (ok: bool)
    ensures ok <==> ReportOk(p, r)
  {
    hide ExecutionsOk, Quantities, CashFlows, HoldingFlows;
    if !p.client.H1Id? || r.version != 1 || r.revision < 1 || r.lean <= 0 || r.broker == "" || r.client != p.client
       || r.instrument != p.instrument || r.source != p.source {
      return false;
    }
    if p.quantity <= 0.0 || p.cash < 0.0 || p.units < 0.0 {
      return false;
    }
    if r.quantity != (if p.side == Buy then p.quantity else -p.quantity) || r.limit != p.limit {
      return false;
    }
    var read := ReadExecutions(p.side, r.executions, p.cash, p.units);
    if read.None? {
      return false;
    }
    var (filled, cash, holding) := read.value;
    var fits := match r.status
      case Submitted => filled == 0.0
      case PartiallyFilled => 0.0 < filled && filled < p.quantity
      case Filled => filled == p.quantity
      case Canceled => filled < p.quantity;
    return filled <= p.quantity && fits && cash >= 0.0 && holding >= 0.0 && cash == r.cash && holding == r.holding;
  }

  class Store {
    var intents: map<ClientId, IntentRow>
    var rows: seq<ClientId>
    var resolutions: map<ClientId, Resolution>
    var hold: Option<Hold>
    var proposals: map<ClientId, ProposalRow>
    var orders: map<ClientId, OrderRow>
    var executions: map<ClientId, seq<Execution>>
    var snapshots: map<ClientId, Snapshot>
    var sources: map<ClientId, SourceOrder>

    ghost function Now(): View
      reads this
    {
      View(intents, rows, resolutions, hold, proposals, orders, executions, snapshots, sources)
    }

    ghost predicate Valid()
      reads this
    {
      Invariant(Now())
    }

    constructor ()
      ensures Valid() && Now() == Empty
    {
      intents, rows, resolutions, hold, proposals := map[], [], map[], None, map[];
      orders, executions, snapshots, sources := map[], map[], map[], map[];
    }

    predicate Unresolved(except: Option<ClientId>): (r: bool)
      reads this
      ensures r <==> AnyUnresolved(Now(), except)
    {
      exists c <- intents :: c !in resolutions && Some(c) != except
    }

    /** Guard successors created before guards existed. */
    method Initialize()
      requires Valid()
      modifies this
      ensures Valid() && Now() == Apply(old(Now()), Step.Initialize).view
    {
      hide Invariant;
      ApplyKeeps(Now(), Step.Initialize);
      intents := map c | c in intents :: intents[c].(guarded := intents[c].guarded || NamesReport(intents[c].terms.source));
    }

    method Prepare(t: Terms, r: Rules) returns (answer: Answer)
      requires Valid()
      modifies this
      ensures Valid() && Outcome(Now(), answer) == Apply(old(Now()), Step.Prepare(t, r))
    {
      hide Invariant, Accepts, IntentOk, AnyUnresolved, Unresolved, Apply;
      ghost var v := Now();
      ApplyKeeps(v, Step.Prepare(t, r));
      PrepareStep(v, t, r);
      var accepted := Validate(r, t);
      if !IntentOk(t) || !accepted {
        return Refused(InvalidTerms);
      }
      if hold.Some? {
        return Refused(Held);
      }
      if t.client in intents {
        var existing := intents[t.client];
        if existing.terms != t || existing.rules != r {
          return Refused(DifferentTerms);
        }
        return No;
      }
      if Unresolved(None) {
        return Refused(Reason.Unresolved);
      }
      AddIntent(IntentRow(t, r, false, false));
      return Yes;
    }

    /** The row a first preparation writes. */
    method AddIntent(row: IntentRow)
      modifies this
      ensures Now() == var v := old(Now()); v.(intents := v.intents[row.terms.client := row], rows := v.rows + [row.terms.client])
    {
      intents := intents[row.terms.client := row];
      rows := rows + [row.terms.client];
    }

    /** Claim a prepared intent; true to one caller with the matching source and rules. */
    method ClaimOnce(c: ClientId, source: Revision, r: Rules) returns (answer: Answer)
      requires Valid()
      modifies this
      ensures Valid() && Outcome(Now(), answer) == Apply(old(Now()), Step.Claim(c, source, r))
    {
      hide Invariant, Accepts;
      ApplyKeeps(Now(), Step.Claim(c, source, r));
      if hold.Some? {
        return Refused(Held);
      }
      if c !in intents {
        return No;
      }
      var row := intents[c];
      if row.terms.source != source || row.rules != r || row.claimed {
        return No;
      }
      if row.guarded {
        return Refused(NeedsGuard);
      }
      var accepted := Validate(r, row.terms);
      if !accepted {
        return Refused(InvalidTerms);
      }
      intents := intents[c := row.(claimed := true)];
      return Yes;
    }

    /** The bridge's preparation: the intent in one transaction, its proposal in the next. */
    method BridgePrepare(p: Proposal, observed: int, source: Revision, r: Rules) returns (answer: Answer)
      requires Valid()
      modifies this
      ensures Valid()
      ensures var v, record := old(Now()), Step.Record(p, source, r);
        if !ProposalOk(p, observed, source, r) then Outcome(Now(), answer) == Refuse(v, InvalidTerms)
        else
          var prepared := Apply(v, Step.Prepare(IntentOf(p, source), r));
          if prepared.answer.Refused? then Outcome(Now(), answer) == prepared
          else Enabled(prepared.view, record) && Outcome(Now(), answer) == Apply(prepared.view, record)
    {
      hide Invariant, ProposalOk, AnyUnresolved;
      var validated := CheckProposal(p, observed, source, r);
      if !validated {
        return Refused(InvalidTerms);
      }
      ProposalAtOpen(p, observed, source, r);
      var prepared := Prepare(IntentOf(p, source), r);
      if prepared.Refused? {
        return prepared;
      }
      ApplyKeeps(Now(), Step.Record(p, source, r));
      var row := ProposalRow(p.open, source, r, p);
      if p.client in proposals && proposals[p.client] != row {
        return Refused(DifferentTerms);
      }
      proposals := proposals[p.client := row];
      return Yes;
    }

    /** The bridge's claim: only at the opening instant of the stored proposal. */
    method BridgeClaim(c: ClientId, observed: int, opening: int, source: Revision, r: Rules) returns (answer: Answer)
      requires Valid()
      modifies this
      ensures Valid()
      ensures var v := old(Now());
        if observed != opening || c !in v.proposals || v.proposals[c].opening != opening || v.proposals[c].source != source || v.proposals[c].rules != r
        then Outcome(Now(), answer) == Refuse(v, ClaimChanged)
        else Outcome(Now(), answer) == Apply(v, Step.Claim(c, source, r))
    {
      hide Invariant;
      if observed != opening {
        return Refused(ClaimChanged);
      }
      if c !in proposals {
        return Refused(ClaimChanged);
      }
      var row := proposals[c];
      if row.opening != opening || row.source != source || row.rules != r {
        return Refused(ClaimChanged);
      }
      answer := ClaimOnce(c, source, r);
    }

    /** Write one local synthetic order after the claim. */
    method Submit(c: ClientId, source: Revision) returns (answer: Answer)
      requires Valid()
      modifies this
      ensures Valid() && Outcome(Now(), answer) == Apply(old(Now()), Step.Submit(c, source))
    {
      hide Invariant;
      ApplyKeeps(Now(), Step.Submit(c, source));
      if c !in intents || !intents[c].claimed {
        return Refused(NotClaimed);
      }
      if intents[c].terms.source != source {
        return Refused(SourceChanged);
      }
      if c in sources {
        if !SourceFits(c, intents[c], sources[c]) {
          return Refused(OrderConflict);
        }
        return No;
      }
      sources := sources[c := SourceOrder(intents[c].terms, c)];
      return Yes;
    }

    /** Adopt a present order, or rearm the same identifier on definitive local absence. */
    method AdoptOrRearm(c: ClientId) returns (answer: Answer)
      requires Valid()
      modifies this
      ensures Valid() && Outcome(Now(), answer) == Apply(old(Now()), Step.Adopt(c))
    {
      hide Invariant;
      ApplyKeeps(Now(), Step.Adopt(c));
      if c !in intents {
        return Refused(UnknownIntent);
      }
      if c in sources {
        if !SourceFits(c, intents[c], sources[c]) || !intents[c].claimed {
          return Refused(OrderConflict);
        }
        return Present;
      }
      if !intents[c].claimed {
        return Prepared;
      }
      intents := intents[c := intents[c].(claimed := false)];
      return Rearmed;
    }

    /** Store one complete revisioned report of a claimed proposal. */
    method Reconcile(p: Proposal, r: Report) returns (answer: Answer)
      requires Valid()
      modifies this
      ensures Valid() && Outcome(Now(), answer) == Apply(old(Now()), Step.Reconcile(p, r))
    {
      hide Invariant, ReportOk, Retains, Added, BrokerUsed, Apply;
      ghost var v := Now();
      ApplyKeeps(v, Step.Reconcile(p, r));
      ReconcileStep(v, p, r);
      var c := p.client;
      var checked := CheckReport(p, r);
      if !checked {
        return Refused(ReportMismatch);
      }
      ReportSameClient(p, r);
      if c !in intents || !intents[c].claimed || c !in proposals || proposals[c].proposal != p
         || intents[c].terms != IntentOf(p, p.source) {
        return Refused(NoMatchingProposal);
      }
      if c !in orders {
        if r.revision != 1 {
          return Refused(RevisionChanged);
        }
      } else {
        var last := orders[c];
        if last.lean != r.lean || last.broker != r.broker || r.revision < last.revision || r.revision > last.revision + 1
           || (r.revision == last.revision && r != last.report) {
          return Refused(RevisionChanged);
        }
      }
      if c in resolutions && (c !in orders || r.revision != orders[c].revision) {
        return Refused(Resolved);
      }
      if c in orders && Terminal(orders[c].status) && r.revision != orders[c].revision {
        return Refused(Closed);
      }
      var stored := if c in executions then executions[c] else [];
      if !Retains(stored, r.executions) {
        return Refused(ExecutionChanged);
      }
      if c !in orders && BrokerUsed(orders, r.broker) {
        return Refused(BrokerTaken);
      }
      StoreReport(c, r, stored + Added(stored, r.executions));
      return HoldReport;
    }

    /** The order and the executions that an accepted report leaves stored. */
    method StoreReport(c: ClientId, r: Report, rows: seq<Execution>)
      modifies this
      ensures Now() == var v := old(Now());
        v.(executions := v.executions[c := rows], orders := v.orders[c := OrderRow(r.lean, r.broker, r.revision, r.status, r)])
    {
      executions := executions[c := rows];
      orders := orders[c := OrderRow(r.lean, r.broker, r.revision, r.status, r)];
    }

    /** The second transaction of a handoff, for a process whose report was just reconciled. */
    method CommitHandoff(p: Proposal, r: Report, next: Proposal, rules: Rules, before: Option<Snapshot>, after: Option<Snapshot>)
        returns (answer: Answer)
      requires Valid() && Enabled(Now(), Step.Handoff(p, r, next, rules, before, after))
      modifies this
      ensures Valid() && Outcome(Now(), answer) == Apply(old(Now()), Step.Handoff(p, r, next, rules, before, after))
    {
      hide Invariant, ReportOk, Continues, ProposalOk, StablePair, Committing;
      ApplyKeeps(Now(), Step.Handoff(p, r, next, rules, before, after));
      if r.status !in {Filled, Canceled} {
        return Refused(NotTerminal);
      }
      var validated := CheckProposal(next, next.open, OfReport(r), rules);
      var continued := CheckContinued(p, r, next);
      if !validated || !continued {
        return Refused(HandoffMismatch);
      }
      var evidence := ReadPair(before, after, r, next.open);
      if evidence.None? {
        return Refused(SnapshotMismatch);
      }
      answer := Commit(p.client, r, next, rules, evidence.value);
    }

    method Commit(prior: ClientId, r: Report, next: Proposal, rules: Rules, evidence: Snapshot) returns (answer: Answer)
      modifies this
      ensures Outcome(Now(), answer) == Committing(old(Now()), prior, r, next, rules, evidence)
    {
      hide AnyUnresolved, Unresolved;
      var source := OfReport(r);
      if hold.Some? {
        return Refused(Held);
      }
      if prior !in orders || orders[prior].report != r || orders[prior].revision != r.revision || orders[prior].status != r.status
         || prior !in intents || !intents[prior].claimed {
        return Refused(TerminalChanged);
      }
      if prior in resolutions {
        if next.client !in intents || next.client !in proposals || prior !in snapshots || snapshots[prior] != evidence
           || resolutions[prior] != Resolution(intents[prior].terms.source, orders[prior].revision)
           || proposals[next.client].proposal != next || proposals[next.client].source != source {
          return Refused(ReplayChanged);
        }
        return Replayed;
      }
      if next.client in intents || Unresolved(Some(prior)) {
        return Refused(AnotherIntent);
      }
      resolutions := resolutions[prior := Resolution(intents[prior].terms.source, orders[prior].revision)];
      snapshots := snapshots[prior := evidence];
      intents := intents[next.client := IntentRow(IntentOf(next, source), rules, true, false)];
      rows := rows + [next.client];
      proposals := proposals[next.client := ProposalRow(next.open, source, rules, next)];
      return HandedOff;
    }

    /** Reconcile the terminal report, then retire it and prepare its successor. */
    method Handoff(p: Proposal, r: Report, next: Proposal, rules: Rules, before: Option<Snapshot>, after: Option<Snapshot>)
        returns (answer: Answer)
      requires Valid()
      modifies this
      ensures Valid()
      ensures var reconciled := Apply(old(Now()), Step.Reconcile(p, r));
        if reconciled.answer.Refused? then Outcome(Now(), answer) == reconciled
        else
          && Enabled(reconciled.view, Step.Handoff(p, r, next, rules, before, after))
          && Outcome(Now(), answer) == Apply(reconciled.view, Step.Handoff(p, r, next, rules, before, after))
    {
      hide Invariant, HandingOff;
      ReconciledEnables(Now(), p, r);
      hide Reconciling;
      var reconciled := Reconcile(p, r);
      if reconciled.Refused? {
        return reconciled;
      }
      answer := CommitHandoff(p, r, next, rules, before, after);
    }

    /** Recheck the parent's evidence, latch a hold on a late change, and claim the successor when asked. */
    method ObserveHandoff(c: ClientId, read: Option<Report>, before: Option<Snapshot>, after: Option<Snapshot>, claim: Option<Guarded>)
        returns (answer: Answer)
      requires Valid()
      modifies this
      ensures Valid() && Outcome(Now(), answer) == Apply(old(Now()), Step.Observe(c, read, before, after, claim))
    {
      hide Invariant, Accepts, SnapshotOk, Parent;
      ApplyKeeps(Now(), Step.Observe(c, read, before, after, claim));
      if hold.Some? {
        return Refused(Held);
      }
      if c !in intents || c !in proposals || !intents[c].guarded || proposals[c].source != intents[c].terms.source {
        return Refused(NoGuardedHandoff);
      }
      ParentKnown(Now(), intents[c].terms.source);
      var parent := FindParent(intents[c].terms.source);
      if parent.None? {
        return Refused(NoParent);
      }
      if read != Some(orders[parent.value].report) {
        hold := Some(Hold(c, LateReport));
        return Refused(LateChange);
      }
      var evidence := ReadPair(before, after, read.value, proposals[c].opening);
      if evidence.None? {
        return Refused(SnapshotMismatch);
      }
      if evidence.value != snapshots[parent.value] {
        hold := Some(Hold(c, LateSnapshot));
        return Refused(LateChange);
      }
      if claim.None? {
        return Unchanged;
      }
      var fits := CheckClaim(intents[c], proposals[c], c, claim.value);
      if !fits {
        return Refused(ClaimChanged);
      }
      if intents[c].claimed {
        return AlreadyClaimed;
      }
      var accepted := Validate(claim.value.rules, intents[c].terms);
      if !accepted {
        return Refused(InvalidTerms);
      }
      intents := intents[c := intents[c].(claimed := true)];
      return Claimed;
    }

    /** Validate a successor's proposal and claim it against its parent's evidence. */
    method ClaimAfterHandoff(next: Proposal, read: Option<Report>, before: Option<Snapshot>, after: Option<Snapshot>, r: Rules)
        returns (answer: Answer)
      requires Valid()
      modifies this
      ensures Valid()
      ensures var v, claim := old(Now()), Some(Guarded(IntentOf(next, next.source), next.open, next, r));
        if !ProposalOk(next, next.open, next.source, r) then Outcome(Now(), answer) == Refuse(v, InvalidTerms)
        else Outcome(Now(), answer) == Apply(v, Step.Observe(next.client, read, before, after, claim))
    {
      hide Invariant, ProposalOk;
      var validated := CheckProposal(next, next.open, next.source, r);
      if !validated {
        return Refused(InvalidTerms);
      }
      answer := ObserveHandoff(next.client, read, before, after, Some(Guarded(IntentOf(next, next.source), next.open, next, r)));
    }

    /** The join of orders, resolutions and snapshots on the report a source revision names. */
    function FindParent(source: Revision): (r: Option<ClientId>)
      reads this
      ensures r == Parent(Now(), source)
    {
      if source.Plain? then None else
      var c := source.report.client;
      if c in orders && orders[c].report == source.report && c in resolutions && c in snapshots
         && resolutions[c].finalRevision == orders[c].revision then Some(c) else None
    }
  }

  lemma ProposalAtOpen(p: Proposal, observed: int, source: Revision, r: Rules)
    requires ProposalOk(p, observed, source, r)
    ensures ProposalOk(p, p.open, source, r)
  {}

  lemma ReportSameClient(p: Proposal, r: Report)
    requires ReportOk(p, r)
    ensures r.client == p.client
  {}

  lemma ParentKnown(v: View, source: Revision)
    ensures var p := Parent(v, source); p.Some? ==> p.value in v.orders && p.value in v.snapshots
  {}

  /** A reconciled report enables its handoff. */
  lemma ReconciledEnables(v: View, p: Proposal, r: Report)
    ensures var o := Reconciling(v, p, r);
      !o.answer.Refused? ==> ReportOk(p, r) && p.client in o.view.proposals && o.view.proposals[p.client].proposal == p
  {
    hide ReportOk, RevisionFault, Retains, Added, StoredOf;
  }
}
