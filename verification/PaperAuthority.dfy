/** The paper-order authority: one store shared by every process, and each of
    its transactions as one atomic step.  A SHA-256 digest is modelled by the
    value it is taken of, so a report hash is the report. */
module PaperAuthority {
  import opened Exact

  datatype Side = Buy | Sell

  /** A client identifier given by name, or the H1 identifier hashed from its terms. */
  datatype ClientId = Named(name: string) | H1Id(experiment: string, instrument: string, signal: int, side: Side)

  /** A source revision given by name, or the accepted report it is the hash of. */
  datatype Revision = Plain(name: string) | OfReport(report: Report)

  datatype Terms = Terms(client: ClientId, instrument: string, side: Side, quantity: real, limit: real, source: Revision)
  datatype Rules = Rules(instrument: string, revision: string, baseIncrement: real, quoteIncrement: real, baseMin: real, quoteMin: real)

  datatype Execution = Execution(id: string, quantity: real, price: real, fee: real)
  datatype Status = Submitted | PartiallyFilled | Filled | Canceled

  datatype Report = Report(version: int, revision: int, client: ClientId, instrument: string, source: Revision, lean: int,
                           broker: string, status: Status, quantity: real, limit: real, executions: seq<Execution>,
                           cash: real, holding: real)

  datatype Proposal = Proposal(policy: string, signal: int, open: int, source: Revision, experiment: string, instrument: string,
                               side: Side, closedHours: int, decision: int, risk: int, halted: bool, client: ClientId,
                               limit: real, equity: real, cash: real, units: real, quantity: real, target: real)

  datatype Snapshot = Snapshot(version: int, origin: string, observed: int, token: string, accountRevision: string,
                               ordersRevision: string, executionsRevision: string, client: ClientId, broker: string, status: Status,
                               revision: int, reference: Revision, cash: real, holding: real, openOrders: seq<string>, finality: string)

  // ----- the tables

  datatype IntentRow = IntentRow(terms: Terms, rules: Rules, guarded: bool, claimed: bool)
  datatype ProposalRow = ProposalRow(opening: int, source: Revision, rules: Rules, proposal: Proposal)
  datatype OrderRow = OrderRow(lean: int, broker: string, revision: int, status: Status, report: Report)
  datatype Resolution = Resolution(source: Revision, finalRevision: int)
  datatype LateReason = LateReport | LateSnapshot
  datatype Hold = Hold(client: ClientId, reason: LateReason)
  datatype SourceOrder = SourceOrder(terms: Terms, broker: ClientId)

  /** All tables; `rows` lists the intents in row order. */
  datatype View = View(intents: map<ClientId, IntentRow>, rows: seq<ClientId>, resolutions: map<ClientId, Resolution>,
                       hold: Option<Hold>, proposals: map<ClientId, ProposalRow>, orders: map<ClientId, OrderRow>,
                       executions: map<ClientId, seq<Execution>>, snapshots: map<ClientId, Snapshot>,
                       sources: map<ClientId, SourceOrder>)

  const Empty := View(map[], [], map[], None, map[], map[], map[], map[], map[])

  // ----- product rules and proposals

  predicate Multiple(amount: real, increment: real)
    requires increment > 0.0
  {
    (amount / increment).Floor as real * increment == amount
  }

  predicate RulesOk(r: Rules)
  {
    && r.instrument != "" && r.revision != "" && r.revision != "unversioned"
    && r.baseIncrement > 0.0 && r.quoteIncrement > 0.0 && r.baseMin > 0.0 && r.quoteMin > 0.0
  }

  predicate IntentOk(t: Terms) { t.client != Named("") && t.instrument != "" && t.source != Plain("") && t.quantity > 0.0 && t.limit > 0.0 }

  function Value(t: Terms): real { t.quantity * t.limit }

  /** The product rules accept an order. */
  predicate Accepts(r: Rules, t: Terms)
  {
    && RulesOk(r) && t.instrument == r.instrument
    && Multiple(t.quantity, r.baseIncrement) && Multiple(t.limit, r.quoteIncrement)
    && t.quantity >= r.baseMin && Value(t) >= r.quoteMin
  }

  const ENTRY_FRACTION: real := 0.25

  /** A quarter of the equity at the limit price, rounded down to eight decimals. */
  function Sized(equity: real, limit: real): real
    requires limit != 0.0
  {
    RoundDownUnits(equity * ENTRY_FRACTION / limit * UNIT_SCALE)
  }

  function IntentOf(p: Proposal, source: Revision): Terms { Terms(p.client, p.instrument, p.side, p.quantity, p.limit, source) }

  predicate SizingOk(p: Proposal)
    requires p.limit > 0.0
  {
    if p.side == Buy then
      && p.risk == 0 && !p.halted && p.target == ENTRY_FRACTION && p.units == 0.0
      && p.cash >= p.equity * ENTRY_FRACTION && p.quantity == Sized(p.equity, p.limit) && p.quantity * p.limit <= p.cash
    else p.target == 0.0 && p.units > 0.0 && p.quantity == p.units && (p.risk == 1 <==> p.halted)
  }

  predicate Blank(s: string) { forall i :: 0 <= i < |s| ==> s[i] in " \t\n\r" }

  /** The bridge's validation of a proposal at its opening instant. */
  predicate ProposalOk(p: Proposal, observed: int, source: Revision, rules: Rules)
  {
    && p.policy == "H1-v1" && p.signal == p.open && observed == p.open && p.source == source
    && !Blank(p.experiment) && !Blank(p.instrument)
    && p.closedHours >= 168 && p.decision == (if p.side == Buy then 1 else 2) && 0 <= p.risk <= 1
    && p.client == H1Id(p.experiment, p.instrument, p.signal, p.side)
    && p.limit > 0.0 && p.equity > 0.0 && p.cash >= 0.0 && p.units >= 0.0
    && SizingOk(p)
    && IntentOk(IntentOf(p, source)) && Accepts(rules, IntentOf(p, source))
  }

  // ----- executions of a report

  function CashFlow(side: Side, e: Execution): real
  {
    if side == Buy then -(e.quantity * e.price) - e.fee else e.quantity * e.price - e.fee
  }

  function Quantities(s: seq<Execution>): real
  {
    if s == [] then 0.0 else Quantities(s[..|s| - 1]) + s[|s| - 1].quantity
  }

  function CashFlows(side: Side, s: seq<Execution>): real
  {
    if s == [] then 0.0 else CashFlows(side, s[..|s| - 1]) + CashFlow(side, s[|s| - 1])
  }

  /** What the executions add to the holding. */
  function HoldingFlows(side: Side, s: seq<Execution>): real { if side == Buy then Quantities(s) else -Quantities(s) }

  predicate ExecutionsOk(s: seq<Execution>)
  {
    && (forall i :: 0 <= i < |s| ==> s[i].id != "" && s[i].quantity > 0.0 && s[i].price > 0.0 && s[i].fee >= 0.0)
    && forall i, j :: 0 <= i < j < |s| ==> s[i].id != s[j].id
  }

  predicate StatusOk(status: Status, filled: real, target: real)
  {
    && filled <= target
    && match status
       case Submitted => filled == 0.0
       case PartiallyFilled => 0.0 < filled < target
       case Filled => filled == target
       case Canceled => filled != target
  }

  /** A report that fits its proposal: identity, terms, executions, fill and account. */
  predicate ReportOk(p: Proposal, r: Report)
  {
    && p.client.H1Id? && r.version == 1 && r.revision >= 1 && r.lean > 0 && r.broker != ""
    && r.client == p.client && r.instrument == p.instrument && r.source == p.source
    && p.quantity > 0.0 && p.cash >= 0.0 && p.units >= 0.0
    && r.quantity == (if p.side == Buy then p.quantity else -p.quantity) && r.limit == p.limit
    && ExecutionsOk(r.executions)
    && StatusOk(r.status, Quantities(r.executions), p.quantity)
    && r.cash == p.cash + CashFlows(p.side, r.executions) && r.cash >= 0.0
    && r.holding == p.units + HoldingFlows(p.side, r.executions) && r.holding >= 0.0
  }

  predicate Terminal(s: Status) { s == Filled || s == Canceled }

  /** The stored rows that an insert-or-ignore of the incoming executions adds. */
  function Added(stored: seq<Execution>, incoming: seq<Execution>): seq<Execution>
  {
    if incoming == [] then []
    else
      var last := incoming[|incoming| - 1];
      Added(stored, incoming[..|incoming| - 1]) + (if exists k :: 0 <= k < |stored| && stored[k].id == last.id then [] else [last])
  }

  /** No stored execution is removed or corrected by the incoming ones. */
  predicate Retains(stored: seq<Execution>, incoming: seq<Execution>) { forall e <- stored :: e in incoming }

  function StoredOf(v: View, c: ClientId): seq<Execution> { if c in v.executions then v.executions[c] else [] }

  // ----- snapshots

  predicate SnapshotOk(s: Snapshot, r: Report, opening: int)
  {
    && s.version == 1 && s.origin == "synthetic-local-broker" && !Blank(s.token)
    && s.accountRevision == s.token && s.ordersRevision == s.token && s.executionsRevision == s.token
    && s.observed == opening && s.client == r.client && s.broker == r.broker && s.status == r.status
    && s.revision == r.revision && s.reference == OfReport(r) && s.cash == r.cash && s.holding == r.holding
    && s.openOrders == [] && s.finality == "terminal_at_cursor"
  }

  /** Two equal reads of one consistent cursor; `None` is a refusal. */
  function StablePair(before: Option<Snapshot>, after: Option<Snapshot>, r: Report, opening: int): Option<Snapshot>
  {
    if before.None? || after.None? || before != after || !SnapshotOk(before.value, r, opening) then None else before
  }

  // ----- transactions

  datatype Reason = InvalidTerms | Held | DifferentTerms | Unresolved | NeedsGuard | NotClaimed | SourceChanged | OrderConflict
                  | UnknownIntent | ReportMismatch | NoMatchingProposal | RevisionChanged | BrokerTaken | Resolved | Closed | ExecutionChanged
                  | NotTerminal | HandoffMismatch | SnapshotMismatch | TerminalChanged | ReplayChanged | AnotherIntent
                  | NoGuardedHandoff | NoParent | LateChange | ClaimChanged
  datatype Answer = Yes | No | Present | Rearmed | Prepared | HoldReport | HandedOff | Replayed | Unchanged | Claimed | AlreadyClaimed
                  | Refused(reason: Reason)
  datatype Outcome = Outcome(view: View, answer: Answer)

  datatype Guarded = Guarded(terms: Terms, opening: int, proposal: Proposal, rules: Rules)

  datatype Step =
    | Initialize
    | Prepare(terms: Terms, rules: Rules)
    | Record(proposal: Proposal, source: Revision, rules: Rules)
    | Claim(client: ClientId, source: Revision, rules: Rules)
    | Submit(client: ClientId, source: Revision)
    | Adopt(client: ClientId)
    | Reconcile(proposal: Proposal, report: Report)
    | Handoff(proposal: Proposal, report: Report, next: Proposal, rules: Rules, before: Option<Snapshot>, after: Option<Snapshot>)
    | Observe(successor: ClientId, read: Option<Report>, before: Option<Snapshot>, after: Option<Snapshot>, claim: Option<Guarded>)

  predicate AnyUnresolved(v: View, except: Option<ClientId>)
  {
    exists c <- v.intents :: c !in v.resolutions && Some(c) != except
  }

  function Refuse(v: View, reason: Reason): Outcome { Outcome(v, Refused(reason)) }

  const REPORT_PREFIX: string := "h1-report-v1:"

  function Lower(c: char): char { if 'A' <= c <= 'Z' then c - 'A' + 'a' else c }

  /** A revision that is, or begins in either case like, the hash of a report. */
  predicate NamesReport(r: Revision)
  {
    || r.OfReport?
    || (|REPORT_PREFIX| <= |r.name| && forall i :: 0 <= i < |REPORT_PREFIX| ==> Lower(r.name[i]) == REPORT_PREFIX[i])
  }

  function Initialized(v: View): Outcome
  {
    Outcome(v.(intents := map c | c in v.intents :: v.intents[c].(guarded := v.intents[c].guarded || NamesReport(v.intents[c].terms.source))), Yes)
  }

  function Preparing(v: View, t: Terms, r: Rules): Outcome
  {
    if !IntentOk(t) || !Accepts(r, t) then Refuse(v, InvalidTerms)
    else if v.hold.Some? then Refuse(v, Held)
    else if t.client in v.intents then
      if v.intents[t.client].terms == t && v.intents[t.client].rules == r then Outcome(v, No) else Refuse(v, DifferentTerms)
    else if AnyUnresolved(v, None) then Refuse(v, Unresolved)
    else Outcome(v.(intents := v.intents[t.client := IntentRow(t, r, false, false)], rows := v.rows + [t.client]), Yes)
  }

  /** The second transaction of the bridge's preparation: keep the proposal beside its intent. */
  function Recording(v: View, p: Proposal, source: Revision, r: Rules): Outcome
  {
    var row := ProposalRow(p.open, source, r, p);
    if p.client in v.proposals && v.proposals[p.client] != row then Refuse(v, DifferentTerms)
    else Outcome(v.(proposals := v.proposals[p.client := row]), Yes)
  }

  /** The claim flag of one intent set or cleared. */
  function Flagged(v: View, c: ClientId, claimed: bool): View
    requires c in v.intents
  {
    v.(intents := v.intents[c := v.intents[c].(claimed := claimed)])
  }

  function Claiming(v: View, c: ClientId, source: Revision, r: Rules): Outcome
  {
    if v.hold.Some? then Refuse(v, Held)
    else if c !in v.intents || v.intents[c].terms.source != source || v.intents[c].rules != r || v.intents[c].claimed then Outcome(v, No)
    else if v.intents[c].guarded then Refuse(v, NeedsGuard)
    else if !Accepts(r, v.intents[c].terms) then Refuse(v, InvalidTerms)
    else Outcome(Flagged(v, c, true), Yes)
  }

  predicate SourceFits(c: ClientId, row: IntentRow, o: SourceOrder) { o.terms == row.terms && o.broker == c }

  function Submitting(v: View, c: ClientId, source: Revision): Outcome
  {
    if c !in v.intents || !v.intents[c].claimed then Refuse(v, NotClaimed)
    else if v.intents[c].terms.source != source then Refuse(v, SourceChanged)
    else if c in v.sources then
      if SourceFits(c, v.intents[c], v.sources[c]) then Outcome(v, No) else Refuse(v, OrderConflict)
    else Outcome(v.(sources := v.sources[c := SourceOrder(v.intents[c].terms, c)]), Yes)
  }

  /** Adopt a present order, or rearm the same identifier on definitive local absence. */
  function Adopting(v: View, c: ClientId): Outcome
  {
    if c !in v.intents then Refuse(v, UnknownIntent)
    else if c in v.sources then
      if !SourceFits(c, v.intents[c], v.sources[c]) || !v.intents[c].claimed then Refuse(v, OrderConflict) else Outcome(v, Present)
    else if v.intents[c].claimed then Outcome(Flagged(v, c, false), Rearmed)
    else Outcome(v, Prepared)
  }

  /** Whether the next report of an order follows the last one; `None` if it does. */
  function RevisionFault(v: View, r: Report): Option<Reason>
  {
    var c := r.client;
    if c !in v.orders then (if r.revision != 1 then Some(RevisionChanged) else if c in v.resolutions then Some(Resolved) else None)
    else
      var last := v.orders[c];
      if last.lean != r.lean || last.broker != r.broker || r.revision < last.revision || r.revision > last.revision + 1
         || (r.revision == last.revision && r != last.report) then Some(RevisionChanged)
      else if c in v.resolutions && r.revision != last.revision then Some(Resolved)
      else if Terminal(last.status) && r.revision != last.revision then Some(Closed)
      else None
  }

  /** The broker identifier is unique among stored orders. */
  predicate BrokerUsed(orders: map<ClientId, OrderRow>, broker: string) { exists d <- orders :: orders[d].broker == broker }

  function Reconciling(v: View, p: Proposal, r: Report): Outcome
  {
    var c := p.client;
    if !ReportOk(p, r) then Refuse(v, ReportMismatch)
    else if c !in v.intents || !v.intents[c].claimed || c !in v.proposals || v.proposals[c].proposal != p
         || v.intents[c].terms != IntentOf(p, p.source) then Refuse(v, NoMatchingProposal)
    else if RevisionFault(v, r).Some? then Refuse(v, RevisionFault(v, r).value)
    else if !Retains(StoredOf(v, c), r.executions) then Refuse(v, ExecutionChanged)
    else if c !in v.orders && BrokerUsed(v.orders, r.broker) then Refuse(v, BrokerTaken)
    else
      Outcome(v.(executions := v.executions[c := StoredOf(v, c) + Added(StoredOf(v, c), r.executions)],
                 orders := v.orders[c := OrderRow(r.lean, r.broker, r.revision, r.status, r)]), HoldReport)
  }

  /** The next proposal continues the account of a terminal report, one hour later. */
  predicate Continues(p: Proposal, r: Report, next: Proposal)
  {
    && next.open == p.open + 1 && next.instrument == p.instrument && next.experiment == p.experiment
    && next.source == OfReport(r) && next.cash == r.cash && next.units == r.holding
    && next.equity == r.cash + r.holding * next.limit
  }

  /** What a handoff checks before its transaction; `None` if nothing is wrong. */
  function HandoffFault(p: Proposal, r: Report, next: Proposal, rules: Rules, before: Option<Snapshot>, after: Option<Snapshot>): Option<Reason>
  {
    if !Terminal(r.status) then Some(NotTerminal)
    else if !Continues(p, r, next) || !ProposalOk(next, next.open, OfReport(r), rules) then Some(HandoffMismatch)
    else if StablePair(before, after, r, next.open).None? then Some(SnapshotMismatch)
    else None
  }

  function HandingOff(v: View, p: Proposal, r: Report, next: Proposal, rules: Rules, before: Option<Snapshot>, after: Option<Snapshot>): Outcome
  {
    var fault := HandoffFault(p, r, next, rules, before, after);
    if fault.Some? then Refuse(v, fault.value)
    else Committing(v, p.client, r, next, rules, StablePair(before, after, r, next.open).value)
  }

  /** The second transaction of a handoff: retire the terminal order and prepare its successor. */
  function Committing(v: View, prior: ClientId, r: Report, next: Proposal, rules: Rules, evidence: Snapshot): Outcome
  {
    if v.hold.Some? then Refuse(v, Held)
    else if prior !in v.orders || v.orders[prior].report != r || v.orders[prior].revision != r.revision
         || v.orders[prior].status != r.status || prior !in v.intents || !v.intents[prior].claimed
    then Refuse(v, TerminalChanged)
    else if prior in v.resolutions then
      if next.client !in v.intents || next.client !in v.proposals || prior !in v.snapshots || v.snapshots[prior] != evidence
         || v.resolutions[prior] != Resolution(v.intents[prior].terms.source, v.orders[prior].revision)
         || v.proposals[next.client].proposal != next || v.proposals[next.client].source != OfReport(r)
      then Refuse(v, ReplayChanged)
      else Outcome(v, Replayed)
    else if next.client in v.intents || AnyUnresolved(v, Some(prior)) then Refuse(v, AnotherIntent)
    else
      Outcome(v.(resolutions := v.resolutions[prior := Resolution(v.intents[prior].terms.source, v.orders[prior].revision)],
                 snapshots := v.snapshots[prior := evidence],
                 intents := v.intents[next.client := IntentRow(IntentOf(next, OfReport(r)), rules, true, false)],
                 rows := v.rows + [next.client],
                 proposals := v.proposals[next.client := ProposalRow(next.open, OfReport(r), rules, next)]), HandedOff)
  }

  /** The resolved order whose final report a source revision names. */
  function Parent(v: View, source: Revision): Option<ClientId>
  {
    if source.Plain? then None else
    var c := source.report.client;
    if c in v.orders && v.orders[c].report == source.report && c in v.resolutions && c in v.snapshots
       && v.resolutions[c].finalRevision == v.orders[c].revision then Some(c) else None
  }

  predicate ClaimFits(row: IntentRow, saved: ProposalRow, next: ClientId, g: Guarded)
  {
    && g.terms.client == next && saved.opening == g.opening && saved.proposal == g.proposal && saved.rules == g.rules
    && row.terms.source == g.terms.source && row.rules == g.rules
  }

  /** Recheck the parent's evidence before a guarded claim; a later change latches a hold. */
  function Observing(v: View, c: ClientId, read: Option<Report>, before: Option<Snapshot>, after: Option<Snapshot>, claim: Option<Guarded>): Outcome
  {
    if v.hold.Some? then Refuse(v, Held)
    else if c !in v.intents || c !in v.proposals || !v.intents[c].guarded || v.proposals[c].source != v.intents[c].terms.source
    then Refuse(v, NoGuardedHandoff)
    else
      var parent := Parent(v, v.intents[c].terms.source);
      if parent.None? then Refuse(v, NoParent)
      else if read != Some(v.orders[parent.value].report) then Outcome(v.(hold := Some(Hold(c, LateReport))), Refused(LateChange))
      else
        var evidence := StablePair(before, after, read.value, v.proposals[c].opening);
        if evidence.None? then Refuse(v, SnapshotMismatch)
        else if evidence.value != v.snapshots[parent.value] then Outcome(v.(hold := Some(Hold(c, LateSnapshot))), Refused(LateChange))
        else if claim.None? then Outcome(v, Unchanged)
        else if !ClaimFits(v.intents[c], v.proposals[c], c, claim.value) then Refuse(v, ClaimChanged)
        else if v.intents[c].claimed then Outcome(v, AlreadyClaimed)
        else if !Accepts(claim.value.rules, v.intents[c].terms) then Refuse(v, InvalidTerms)
        else Outcome(Flagged(v, c, true), Claimed)
  }

  function Apply(v: View, s: Step): Outcome
  {
    match s
    case Initialize => Initialized(v)
    case Prepare(t, r) => Preparing(v, t, r)
    case Record(p, source, r) => Recording(v, p, source, r)
    case Claim(c, source, r) => Claiming(v, c, source, r)
    case Submit(c, source) => Submitting(v, c, source)
    case Adopt(c) => Adopting(v, c)
    case Reconcile(p, r) => Reconciling(v, p, r)
    case Handoff(p, r, next, rules, before, after) => HandingOff(v, p, r, next, rules, before, after)
    case Observe(c, read, before, after, claim) => Observing(v, c, read, before, after, claim)
  }

  /** What the process taking a step learned from its own earlier transaction:
      a proposal is recorded after its intent was prepared, and a handoff
      commits after its report was reconciled. */
  predicate Enabled(v: View, s: Step)
  {
    match s
    case Record(p, source, r) =>
      && ProposalOk(p, p.open, source, r) && p.client in v.intents
      && v.intents[p.client].terms == IntentOf(p, source) && v.intents[p.client].rules == r
    case Handoff(p, r, _, _, _, _) => ReportOk(p, r) && p.client in v.proposals && v.proposals[p.client].proposal == p
    case _ => true
  }

  function RunOf(steps: seq<Step>): View
  {
    if steps == [] then Empty else Apply(RunOf(steps[..|steps| - 1]), steps[|steps| - 1]).view
  }

  /** Steps of any processes in any order, each taken by a process that took its own earlier step. */
  predicate Possible(steps: seq<Step>)
  {
    steps == [] || (Possible(steps[..|steps| - 1]) && Enabled(RunOf(steps[..|steps| - 1]), steps[|steps| - 1]))
  }
}
