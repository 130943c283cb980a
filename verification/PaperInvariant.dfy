/** The invariant of the paper authority over every interleaving of its
    transactions, one part per group of tables. */
module PaperInvariant {
  import opened Exact
  import opened PaperAuthority

  type Intents = map<ClientId, IntentRow>
  type Proposals = map<ClientId, ProposalRow>
  type Orders = map<ClientId, OrderRow>

  /** The intents form one line in row order: exactly the last one is unresolved. */
  ghost predicate LineOk(rows: seq<ClientId>, clients: set<ClientId>, resolved: set<ClientId>)
  {
    && (forall c :: c in clients <==> c in rows)
    && (forall i, j :: 0 <= i < j < |rows| ==> rows[i] != rows[j])
    && (forall i: nat :: i < |rows| ==> (rows[i] in resolved <==> i + 1 < |rows|))
    && (forall c :: c in resolved ==> c in rows)
  }

  /** `next` was handed the account of the terminal report of `prior`. */
  ghost predicate Linked(proposals: Proposals, orders: Orders, intents: Intents, prior: ClientId, next: ClientId)
  {
    && prior in orders && prior in proposals && next in proposals && next in intents && intents[next].guarded
    && Terminal(orders[prior].status)
    && proposals[next].source == intents[next].terms.source == OfReport(orders[prior].report)
    && Continues(proposals[prior].proposal, orders[prior].report, proposals[next].proposal)
  }

  ghost predicate LinksOk(rows: seq<ClientId>, proposals: Proposals, orders: Orders, intents: Intents)
  {
    forall i: nat, j: nat :: i + 1 == j < |rows| ==> Linked(proposals, orders, intents, rows[i], rows[j])
  }

  /** A stored proposal was validated and matches its intent. */
  ghost predicate ProposalFits(c: ClientId, row: ProposalRow, intent: IntentRow)
  {
    && row.proposal.client == c && row.opening == row.proposal.open
    && ProposalOk(row.proposal, row.proposal.open, row.source, row.rules)
    && intent.terms == IntentOf(row.proposal, row.source) && intent.rules == row.rules
  }

  ghost predicate ProposalsOk(proposals: Proposals, intents: Intents)
  {
    forall c <- proposals :: c in intents && ProposalFits(c, proposals[c], intents[c])
  }

  ghost predicate DistinctIds(s: seq<Execution>) { forall i, j :: 0 <= i < j < |s| ==> s[i].id != s[j].id }

  /** The same rows, each once, in any order. */
  ghost predicate SameRows(a: seq<Execution>, b: seq<Execution>)
  {
    DistinctIds(a) && DistinctIds(b) && forall e :: e in a <==> e in b
  }

  /** A stored order carries a report that fits its proposal, and exactly that report's executions are stored. */
  ghost predicate OrderFits(c: ClientId, o: OrderRow, p: Proposal, stored: seq<Execution>)
  {
    && ReportOk(p, o.report) && o.report.client == c
    && o == OrderRow(o.report.lean, o.report.broker, o.report.revision, o.report.status, o.report)
    && SameRows(stored, o.report.executions)
  }

  ghost predicate OrdersOk(orders: Orders, executions: map<ClientId, seq<Execution>>, proposals: Proposals)
  {
    && orders.Keys == executions.Keys
    && forall c <- orders :: c in proposals && OrderFits(c, orders[c], proposals[c].proposal, executions[c])
  }

  ghost predicate ResolvedOk(resolutions: map<ClientId, Resolution>, snapshots: map<ClientId, Snapshot>, orders: Orders, intents: Intents)
  {
    && (forall c <- resolutions ::
          && c in orders && c in snapshots && c in intents && Terminal(orders[c].status)
          && resolutions[c] == Resolution(intents[c].terms.source, orders[c].revision))
    && forall c <- snapshots :: c in resolutions
  }

  /** A synthetic order exists only for a claimed intent and with its terms. */
  ghost predicate SourcesOk(sources: map<ClientId, SourceOrder>, intents: Intents)
  {
    forall c <- sources :: c in intents && intents[c].claimed && SourceFits(c, intents[c], sources[c])
  }

  ghost predicate Invariant(v: View)
  {
    && LineOk(v.rows, v.intents.Keys, v.resolutions.Keys)
    && LinksOk(v.rows, v.proposals, v.orders, v.intents)
    && ProposalsOk(v.proposals, v.intents)
    && OrdersOk(v.orders, v.executions, v.proposals)
    && ResolvedOk(v.resolutions, v.snapshots, v.orders, v.intents)
    && SourcesOk(v.sources, v.intents)
  }

  // ----- stored executions

  predicate HasId(s: seq<Execution>, id: string) { exists k :: 0 <= k < |s| && s[k].id == id }

  lemma {:induction false} AddedAre(stored: seq<Execution>, incoming: seq<Execution>)
    requires DistinctIds(incoming)
    ensures DistinctIds(Added(stored, incoming))
    ensures forall e :: e in Added(stored, incoming) <==> e in incoming && !HasId(stored, e.id)
  {
    if incoming != [] {
      var front, last := incoming[..|incoming| - 1], incoming[|incoming| - 1];
      AddedAre(stored, front);
      assert incoming == front + [last];
      forall e | e in front
        ensures e.id != last.id
      {}
      assert forall e :: e in incoming <==> e in front || e == last;
    }
  }

  /** Insert-or-ignore of a report that keeps the stored rows stores exactly its executions. */
  lemma {:induction false} StoredBecome(stored: seq<Execution>, incoming: seq<Execution>)
    requires DistinctIds(stored) && DistinctIds(incoming) && Retains(stored, incoming)
    ensures SameRows(stored + Added(stored, incoming), incoming)
  {
    AddedAre(stored, incoming);
    var added := Added(stored, incoming);
    hide Added;
    var all := stored + added;
    forall i, j | 0 <= i < j < |all|
      ensures all[i].id != all[j].id
    {
      if i < |stored| <= j {
        assert all[j] in added;
      }
    }
    forall e | e in incoming
      ensures e in all
    {
      if HasId(stored, e.id) {
        var k :| 0 <= k < |stored| && stored[k].id == e.id;
        assert stored[k] in incoming;
      }
    }
  }

  /** Nothing is added when every identifier is stored already. */
  lemma {:induction false} NothingAdded(stored: seq<Execution>, incoming: seq<Execution>)
    requires forall e <- incoming :: e in stored
    ensures Added(stored, incoming) == []
  {
    if incoming != [] {
      assert incoming[|incoming| - 1] in stored;
      NothingAdded(stored, incoming[..|incoming| - 1]);
    }
  }

  // ----- what each part of the invariant depends on

  /** Intents are kept: terms and rules never change, guards are never lifted. */
  ghost predicate IntentsKept(before: Intents, after: Intents)
  {
    forall c <- before :: c in after && after[c].terms == before[c].terms && after[c].rules == before[c].rules
                          && (before[c].guarded ==> after[c].guarded)
  }

  lemma KeptParts(v: View, intents: Intents)
    requires Invariant(v) && IntentsKept(v.intents, intents)
    ensures LinksOk(v.rows, v.proposals, v.orders, intents)
    ensures ProposalsOk(v.proposals, intents)
    ensures ResolvedOk(v.resolutions, v.snapshots, v.orders, intents)
  {
    hide LineOk, OrdersOk, SourcesOk, ProposalOk, Continues;
    forall i: nat, j: nat | i + 1 == j < |v.rows|
      ensures Linked(v.proposals, v.orders, intents, v.rows[i], v.rows[j])
    {
      assert Linked(v.proposals, v.orders, v.intents, v.rows[i], v.rows[j]);
    }
  }

  lemma FlagsKeep(v: View, intents: Intents)
    requires Invariant(v) && IntentsKept(v.intents, intents) && intents.Keys == v.intents.Keys
    requires SourcesOk(v.sources, intents)
    ensures Invariant(v.(intents := intents))
  {
    hide LineOk, LinksOk, ProposalsOk, OrdersOk, ResolvedOk, SourcesOk, IntentsKept;
    KeptParts(v, intents);
  }

  /** Proposals are kept when one more is added. */
  lemma ProposalAdded(v: View, c: ClientId, row: ProposalRow)
    requires Invariant(v) && c !in v.proposals
    ensures LinksOk(v.rows, v.proposals[c := row], v.orders, v.intents)
    ensures OrdersOk(v.orders, v.executions, v.proposals[c := row])
    ensures c in v.intents && ProposalFits(c, row, v.intents[c]) ==> ProposalsOk(v.proposals[c := row], v.intents)
  {
    hide LineOk, ResolvedOk, SourcesOk, ProposalFits, OrderFits, Continues;
    forall i: nat, j: nat | i + 1 == j < |v.rows|
      ensures Linked(v.proposals[c := row], v.orders, v.intents, v.rows[i], v.rows[j])
    {
      assert Linked(v.proposals, v.orders, v.intents, v.rows[i], v.rows[j]);
    }
  }

  lemma LastUnresolved(v: View)
    requires LineOk(v.rows, v.intents.Keys, v.resolutions.Keys) && v.rows != []
    ensures AnyUnresolved(v, None)
  {
    var c := v.rows[|v.rows| - 1];
    assert c in v.intents.Keys && c !in v.resolutions.Keys;
  }

  // ----- one lemma per transaction

  /** The plain preparation only ever writes the very first intent. */
  lemma PrepareKeeps(v: View, t: Terms, r: Rules)
    requires Invariant(v)
    ensures Invariant(Preparing(v, t, r).view)
    ensures Preparing(v, t, r).answer == Yes ==> v.rows == []
  {
    hide IntentOk, Accepts, Linked, ProposalFits, OrderFits, AnyUnresolved;
    if Preparing(v, t, r).answer == Yes {
      if v.rows != [] {
        LastUnresolved(v);
      }
      assert forall c :: c !in v.intents.Keys;
    }
  }

  lemma RecordKeeps(v: View, p: Proposal, source: Revision, r: Rules)
    requires Invariant(v) && Enabled(v, Record(p, source, r))
    ensures Invariant(Recording(v, p, source, r).view)
  {
    hide LineOk, LinksOk, ProposalsOk, OrdersOk, ResolvedOk, SourcesOk, ProposalOk;
    if p.client in v.proposals {
      assert Recording(v, p, source, r).view.proposals == v.proposals;
    } else {
      ProposalClient(p, source, r);
      ProposalAdded(v, p.client, ProposalRow(p.open, source, r, p));
    }
  }

  lemma ProposalClient(p: Proposal, source: Revision, r: Rules)
    requires ProposalOk(p, p.open, source, r)
    ensures p.source == source && p.client.H1Id?
  {}

  lemma SubmitKeeps(v: View, c: ClientId, source: Revision)
    requires Invariant(v)
    ensures Invariant(Submitting(v, c, source).view)
  {
    hide LineOk, LinksOk, ProposalsOk, OrdersOk, ResolvedOk;
  }

  lemma InitializeKeeps(v: View)
    requires Invariant(v)
    ensures Invariant(Initialized(v).view)
  {
    hide LineOk, LinksOk, ProposalsOk, OrdersOk, ResolvedOk;
    assert Initialized(v).view.intents.Keys == v.intents.Keys;
    FlagsKeep(v, Initialized(v).view.intents);
  }

  /** Changing only the claim flag of one intent. */
  lemma ClaimFlagKeeps(v: View, c: ClientId, claimed: bool)
    requires Invariant(v) && c in v.intents && (claimed || c !in v.sources)
    ensures Invariant(Flagged(v, c, claimed))
  {
    hide LineOk, LinksOk, ProposalsOk, OrdersOk, ResolvedOk;
    var intents := v.intents[c := v.intents[c].(claimed := claimed)];
    assert intents.Keys == v.intents.Keys;
    FlagsKeep(v, intents);
  }

  lemma ClaimKeeps(v: View, c: ClientId, source: Revision, r: Rules)
    requires Invariant(v)
    ensures Invariant(Claiming(v, c, source, r).view)
  {
    hide Invariant, Flagged, Accepts;
    if c in v.intents {
      ClaimFlagKeeps(v, c, true);
    }
  }

  lemma AdoptKeeps(v: View, c: ClientId)
    requires Invariant(v)
    ensures Invariant(Adopting(v, c).view)
  {
    hide Invariant, Flagged;
    if c in v.intents && c !in v.sources {
      ClaimFlagKeeps(v, c, false);
    }
  }

  lemma HoldKeeps(v: View, hold: Hold)
    requires Invariant(v)
    ensures Invariant(v.(hold := Some(hold)))
  {
    hide LineOk, LinksOk, ProposalsOk, OrdersOk, ResolvedOk, SourcesOk;
  }

  lemma ObserveKeeps(v: View, c: ClientId, read: Option<Report>, before: Option<Snapshot>, after: Option<Snapshot>, claim: Option<Guarded>)
    requires Invariant(v)
    ensures Invariant(Observing(v, c, read, before, after, claim).view)
  {
    hide Invariant, Flagged, Accepts, StablePair, ClaimFits, Parent;
    HoldKeeps(v, Hold(c, LateReport));
    HoldKeeps(v, Hold(c, LateSnapshot));
    if c in v.intents {
      ClaimFlagKeeps(v, c, true);
    }
  }

  lemma ReportShape(p: Proposal, r: Report)
    requires ReportOk(p, r)
    ensures r.client == p.client && DistinctIds(r.executions)
  {}

  /** The executions stored by an accepted report are exactly the report's. */
  lemma ReconcileStores(v: View, p: Proposal, r: Report)
    requires OrdersOk(v.orders, v.executions, v.proposals) && Reconciling(v, p, r).answer == HoldReport
    ensures SameRows(Reconciling(v, p, r).view.executions[p.client], r.executions)
  {
    hide Added, RevisionFault, ReportOk;
    assert ReportOk(p, r);
    ReportShape(p, r);
    var stored := StoredOf(v, p.client);
    assert DistinctIds(stored) by {
      if p.client in v.executions {
        assert p.client in v.orders.Keys;
        assert OrderFits(p.client, v.orders[p.client], v.proposals[p.client].proposal, v.executions[p.client]);
      }
    }
    hide OrdersOk, DistinctIds, SameRows;
    StoredBecome(stored, r.executions);
  }

  /** The order of a resolved or terminal intent is never changed again. */
  lemma ReconcileFrozen(v: View, p: Proposal, r: Report)
    requires OrdersOk(v.orders, v.executions, v.proposals) && Reconciling(v, p, r).answer == HoldReport
    requires p.client in v.orders && (p.client in v.resolutions || Terminal(v.orders[p.client].status))
    ensures Reconciling(v, p, r).view == v
  {
    hide Added, Retains, ReportOk, DistinctIds;
    ReportShape(p, r);
    var c := p.client;
    assert c in v.executions.Keys;
    assert OrderFits(c, v.orders[c], v.proposals[c].proposal, v.executions[c]);
    NothingAdded(StoredOf(v, c), r.executions);
    var u := Reconciling(v, p, r).view;
    assert u.orders[c] == v.orders[c] && u.executions[c] == v.executions[c];
    assert u.orders == v.orders && u.executions == v.executions;
  }

  lemma ReconcileKeeps(v: View, p: Proposal, r: Report)
    requires Invariant(v)
    ensures Invariant(Reconciling(v, p, r).view)
  {
    hide LineOk, LinksOk, ProposalsOk, OrdersOk, ResolvedOk, SourcesOk, ReportOk, OrderFits, RevisionFault, Retains, Added;
    if Reconciling(v, p, r).answer == HoldReport {
      var c := p.client;
      var u := Reconciling(v, p, r).view;
      if c in v.orders && (c in v.resolutions || Terminal(v.orders[c].status)) {
        ReconcileFrozen(v, p, r);
      } else {
        NotResolved(v, p, r);
        ReconcileFits(v, p, r);
        OrderAdded(v, c, u.orders[c], u.executions[c]);
      }
    }
  }

  lemma NotResolved(v: View, p: Proposal, r: Report)
    requires Invariant(v) && (p.client in v.orders ==> p.client !in v.resolutions)
    ensures p.client !in v.resolutions
  {
    hide LineOk, LinksOk, ProposalsOk, OrdersOk, SourcesOk;
  }

  lemma ReconcileFits(v: View, p: Proposal, r: Report)
    requires OrdersOk(v.orders, v.executions, v.proposals) && Reconciling(v, p, r).answer == HoldReport
    ensures var u := Reconciling(v, p, r).view;
      p.client in v.proposals && OrderFits(p.client, u.orders[p.client], v.proposals[p.client].proposal, u.executions[p.client])
  {
    ReconcileStores(v, p, r);
    hide Added, Retains, RevisionFault, SameRows, OrdersOk, ReportOk;
    ReportShape(p, r);
  }

  lemma OrderAdded(v: View, c: ClientId, o: OrderRow, stored: seq<Execution>)
    requires Invariant(v) && c !in v.resolutions && c in v.proposals && OrderFits(c, o, v.proposals[c].proposal, stored)
    ensures Invariant(v.(orders := v.orders[c := o], executions := v.executions[c := stored]))
  {
    hide LineOk, LinksOk, ProposalsOk, OrdersOk, ResolvedOk, SourcesOk, OrderFits;
    LinksKept(v, c, o);
    OrdersGrow(v, c, o, stored);
    ResolvedKept(v, c, o);
  }

  lemma LinksKept(v: View, c: ClientId, o: OrderRow)
    requires LineOk(v.rows, v.intents.Keys, v.resolutions.Keys) && LinksOk(v.rows, v.proposals, v.orders, v.intents) && c !in v.resolutions
    ensures LinksOk(v.rows, v.proposals, v.orders[c := o], v.intents)
  {
    hide LineOk, Linked;
    NotBeforeLast(v, c);
    forall i: nat, j: nat | i + 1 == j < |v.rows|
      ensures Linked(v.proposals, v.orders[c := o], v.intents, v.rows[i], v.rows[j])
    {
      assert Linked(v.proposals, v.orders, v.intents, v.rows[i], v.rows[j]);
      assert v.rows[i] != c;
      LinkKept(v, c, o, v.rows[i], v.rows[j]);
    }
  }

  lemma OrdersGrow(v: View, c: ClientId, o: OrderRow, stored: seq<Execution>)
    requires OrdersOk(v.orders, v.executions, v.proposals) && c in v.proposals && OrderFits(c, o, v.proposals[c].proposal, stored)
    ensures OrdersOk(v.orders[c := o], v.executions[c := stored], v.proposals)
  {
    hide OrderFits;
    assert v.orders[c := o].Keys == v.executions[c := stored].Keys;
  }

  lemma ResolvedKept(v: View, c: ClientId, o: OrderRow)
    requires ResolvedOk(v.resolutions, v.snapshots, v.orders, v.intents) && c !in v.resolutions
    ensures ResolvedOk(v.resolutions, v.snapshots, v.orders[c := o], v.intents)
  {
    hide Terminal;
  }

  lemma LinkKept(v: View, c: ClientId, o: OrderRow, prior: ClientId, next: ClientId)
    requires Linked(v.proposals, v.orders, v.intents, prior, next) && prior != c
    ensures Linked(v.proposals, v.orders[c := o], v.intents, prior, next)
  {
    hide Continues;
  }

  /** An unresolved intent has no successor in the line. */
  lemma NotBeforeLast(v: View, c: ClientId)
    requires LineOk(v.rows, v.intents.Keys, v.resolutions.Keys) && c !in v.resolutions
    ensures forall i: nat :: i + 1 < |v.rows| ==> v.rows[i] != c
  {
    forall i: nat | i + 1 < |v.rows|
      ensures v.rows[i] != c
    {
      assert v.rows[i] in v.resolutions.Keys;
    }
  }

  /** Appending a guarded successor of the last, terminal, order. */
  lemma SuccessorAdded(v: View, prior: ClientId, next: ClientId, row: IntentRow, proposal: ProposalRow, u: View)
    requires Invariant(v) && prior in v.intents && prior !in v.resolutions && next !in v.intents
    requires prior in v.orders && Terminal(v.orders[prior].status) && row.guarded
    requires ProposalFits(next, proposal, row) && row.terms.source == proposal.source == OfReport(v.orders[prior].report)
    requires prior in v.proposals && Continues(v.proposals[prior].proposal, v.orders[prior].report, proposal.proposal)
    requires u == v.(resolutions := v.resolutions[prior := Resolution(v.intents[prior].terms.source, v.orders[prior].revision)],
                     snapshots := u.snapshots, intents := v.intents[next := row], rows := v.rows + [next],
                     proposals := v.proposals[next := proposal])
    requires u.snapshots.Keys == v.snapshots.Keys + {prior}
    ensures Invariant(u)
  {
    hide LineOk, LinksOk, ProposalsOk, OrdersOk, ResolvedOk, SourcesOk, ProposalFits, Continues, Linked, IntentsKept, Terminal;
    NoProposalYet(v, next);
    SuccessorKept(v.intents, next, row);
    KeptParts(v, v.intents[next := row]);
    ProposalAdded(v, next, proposal);
    SuccessorLine(v, prior, next, u);
    SuccessorLinks(v, prior, next, u);
    SuccessorResolved(v, prior, u);
    SuccessorRecords(v, next, u);
  }

  lemma SuccessorKept(intents: Intents, next: ClientId, row: IntentRow)
    requires next !in intents
    ensures IntentsKept(intents, intents[next := row])
  {}

  lemma SuccessorLine(v: View, prior: ClientId, next: ClientId, u: View)
    requires LineOk(v.rows, v.intents.Keys, v.resolutions.Keys) && prior in v.intents && prior !in v.resolutions && next !in v.intents
    requires u.rows == v.rows + [next] && next in u.intents && prior in u.resolutions
    requires u.intents == v.intents[next := u.intents[next]] && u.resolutions == v.resolutions[prior := u.resolutions[prior]]
    ensures LineOk(u.rows, u.intents.Keys, u.resolutions.Keys) && v.rows != [] && v.rows[|v.rows| - 1] == prior
  {
    hide LineOk;
    LineGrows(v.rows, v.intents.Keys, v.resolutions.Keys, prior, next);
    assert u.intents.Keys == v.intents.Keys + {next};
    assert u.resolutions.Keys == v.resolutions.Keys + {prior};
  }

  lemma NoProposalYet(v: View, next: ClientId)
    requires Invariant(v) && next !in v.intents
    ensures next !in v.proposals && next !in v.sources
  {
    hide LineOk, LinksOk, OrdersOk, ResolvedOk;
  }

  lemma SuccessorLinks(v: View, prior: ClientId, next: ClientId, u: View)
    requires LinksOk(v.rows, v.proposals, v.orders, v.intents) && next !in v.intents && next !in v.proposals
    requires v.rows != [] && v.rows[|v.rows| - 1] == prior && u.rows == v.rows + [next]
    requires u.orders == v.orders && next in u.proposals && next in u.intents
    requires prior in v.orders && prior in v.proposals && u.intents[next].guarded && Terminal(v.orders[prior].status)
    requires u.proposals[next].source == u.intents[next].terms.source == OfReport(v.orders[prior].report)
    requires Continues(v.proposals[prior].proposal, v.orders[prior].report, u.proposals[next].proposal)
    requires u.proposals == v.proposals[next := u.proposals[next]] && u.intents == v.intents[next := u.intents[next]]
    ensures LinksOk(u.rows, u.proposals, u.orders, u.intents)
  {
    hide Continues;
    forall i: nat, j: nat | i + 1 == j < |u.rows|
      ensures Linked(u.proposals, u.orders, u.intents, u.rows[i], u.rows[j])
    {
      if j < |v.rows| {
        assert Linked(v.proposals, v.orders, v.intents, v.rows[i], v.rows[j]);
      }
    }
  }

  lemma SuccessorResolved(v: View, prior: ClientId, u: View)
    requires ResolvedOk(v.resolutions, v.snapshots, v.orders, u.intents) && u.orders == v.orders
    requires prior in v.intents && prior in u.intents && u.intents[prior] == v.intents[prior]
    requires prior in v.orders && Terminal(v.orders[prior].status)
    requires u.resolutions == v.resolutions[prior := Resolution(v.intents[prior].terms.source, v.orders[prior].revision)]
    requires u.snapshots.Keys == v.snapshots.Keys + {prior}
    ensures ResolvedOk(u.resolutions, u.snapshots, u.orders, u.intents)
  {
    forall c
      ensures c in u.snapshots <==> c in v.snapshots || c == prior
    {
      assert c in u.snapshots.Keys <==> c in v.snapshots.Keys + {prior};
    }
  }

  lemma SuccessorRecords(v: View, next: ClientId, u: View)
    requires ProposalsOk(v.proposals, v.intents) && SourcesOk(v.sources, v.intents) && next !in v.intents
    requires next in u.proposals && next in u.intents && ProposalFits(next, u.proposals[next], u.intents[next])
    requires u.proposals == v.proposals[next := u.proposals[next]] && u.intents == v.intents[next := u.intents[next]]
    requires u.sources == v.sources
    ensures ProposalsOk(u.proposals, u.intents) && SourcesOk(u.sources, u.intents)
  {
    hide ProposalFits;
  }

  /** The resolved intent was the last of the line, and its successor becomes the last. */
  lemma LineGrows(rows: seq<ClientId>, clients: set<ClientId>, resolved: set<ClientId>, prior: ClientId, next: ClientId)
    requires LineOk(rows, clients, resolved) && prior in clients && prior !in resolved && next !in clients
    ensures LineOk(rows + [next], clients + {next}, resolved + {prior}) && rows != [] && rows[|rows| - 1] == prior
  {
    var k :| 0 <= k < |rows| && rows[k] == prior;
    assert k == |rows| - 1;
    assert next !in rows;
    var more := rows + [next];
    forall i: nat | i < |more|
      ensures more[i] in resolved + {prior} <==> i + 1 < |more|
    {
      if i < |rows| {
        assert more[i] == rows[i];
      }
    }
  }

  lemma {:induction false} HandoffKeeps(v: View, p: Proposal, r: Report, next: Proposal, rules: Rules, before: Option<Snapshot>, after: Option<Snapshot>)
    requires Invariant(v) && Enabled(v, Handoff(p, r, next, rules, before, after))
    ensures Invariant(HandingOff(v, p, r, next, rules, before, after).view)
  {
    hide Invariant, ReportOk, Continues, StablePair, AnyUnresolved, ProposalOk;
    if HandingOff(v, p, r, next, rules, before, after).answer == HandedOff {
      var u := HandingOff(v, p, r, next, rules, before, after).view;
      ProposalClient(next, OfReport(r), rules);
      assert u.snapshots.Keys == v.snapshots.Keys + {p.client};
      SuccessorAdded(v, p.client, next.client, IntentRow(IntentOf(next, OfReport(r)), rules, true, false),
                     ProposalRow(next.open, OfReport(r), rules, next), u);
    }
  }

  /** Every transaction keeps the invariant. */
  lemma ApplyKeeps(v: View, s: Step)
    requires Invariant(v) && Enabled(v, s)
    ensures Invariant(Apply(v, s).view)
  {
    hide Invariant;
    match s
    case Initialize => InitializeKeeps(v);
    case Prepare(t, r) => PrepareKeeps(v, t, r);
    case Record(p, source, r) => RecordKeeps(v, p, source, r);
    case Claim(c, source, r) => ClaimKeeps(v, c, source, r);
    case Submit(c, source) => SubmitKeeps(v, c, source);
    case Adopt(c) => AdoptKeeps(v, c);
    case Reconcile(p, r) => ReconcileKeeps(v, p, r);
    case Handoff(p, r, next, rules, before, after) => HandoffKeeps(v, p, r, next, rules, before, after);
    case Observe(c, read, before, after, claim) => ObserveKeeps(v, c, read, before, after, claim);
  }

  lemma {:induction false} RunKeeps(steps: seq<Step>)
    requires Possible(steps)
    ensures Invariant(RunOf(steps))
  {
    if steps != [] {
      hide Invariant, Apply, Enabled;
      RunKeeps(steps[..|steps| - 1]);
      ApplyKeeps(RunOf(steps[..|steps| - 1]), steps[|steps| - 1]);
    }
  }
}
