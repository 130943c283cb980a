/** What the invariant means over every run of the paper authority. */
module PaperTheorems {
  import opened Exact
  import opened PaperAuthority
  import opened PaperInvariant

  // ----- nothing is ever rewritten

  /** What no transaction ever does: change terms, lift a guard, or rewrite a
      proposal, a resolution, a handoff snapshot or a synthetic order. */
  ghost predicate Preserved(v: View, u: View)
  {
    && IntentsKept(v.intents, u.intents) && v.rows <= u.rows
    && Grows(v.proposals, u.proposals) && Grows(v.resolutions, u.resolutions)
    && Grows(v.snapshots, u.snapshots) && Grows(v.sources, u.sources)
  }

  ghost predicate Grows<K, V>(m: map<K, V>, n: map<K, V>) { forall k <- m :: k in n && n[k] == m[k] }

  lemma GrowsSelf<K, V>(m: map<K, V>)
    ensures Grows(m, m)
  {}

  lemma GrowsBy<K, V>(m: map<K, V>, k: K, x: V)
    requires k in m ==> m[k] == x
    ensures Grows(m, m[k := x])
  {}

  lemma PreservedSelf(v: View)
    ensures Preserved(v, v)
  {}

  lemma PreservedThrough(v: View, u: View, w: View)
    requires Preserved(v, u) && Preserved(u, w)
    ensures Preserved(v, w)
  {}

  /** Intents that keep their terms, or one more of them, and nothing else. */
  lemma IntentsPreserve(v: View, u: View)
    requires IntentsKept(v.intents, u.intents) && v.rows <= u.rows
    requires u.proposals == v.proposals && u.resolutions == v.resolutions && u.snapshots == v.snapshots && u.sources == v.sources
    ensures Preserved(v, u)
  {
    hide IntentsKept, Grows;
    GrowsSelf(v.proposals);
    GrowsSelf(v.resolutions);
    GrowsSelf(v.snapshots);
    GrowsSelf(v.sources);
  }

  lemma PreparePreserves(v: View, t: Terms, r: Rules)
    ensures Preserved(v, Preparing(v, t, r).view)
  {
    hide IntentOk, Accepts, AnyUnresolved, Preserved, IntentsKept;
    PreservedSelf(v);
    if t.client !in v.intents {
      SuccessorKept(v.intents, t.client, IntentRow(t, r, false, false));
      if Preparing(v, t, r).answer == Yes {
        IntentsPreserve(v, Preparing(v, t, r).view);
      }
    }
  }

  lemma RecordPreserves(v: View, p: Proposal, source: Revision, r: Rules)
    ensures Preserved(v, Recording(v, p, source, r).view)
  {
    PreservedSelf(v);
    hide Grows, IntentsKept;
    var row := ProposalRow(p.open, source, r, p);
    if p.client in v.proposals ==> v.proposals[p.client] == row {
      GrowsBy(v.proposals, p.client, row);
    }
  }

  lemma ClaimPreserves(v: View, c: ClientId, claimed: bool)
    ensures c in v.intents ==> Preserved(v, Flagged(v, c, claimed))
  {
    hide Preserved;
    if c in v.intents {
      IntentsPreserve(v, Flagged(v, c, claimed));
    }
  }

  lemma ObservePreserves(v: View, c: ClientId, read: Option<Report>, before: Option<Snapshot>, after: Option<Snapshot>, claim: Option<Guarded>)
    ensures Preserved(v, Observing(v, c, read, before, after, claim).view)
  {
    hide Observing, Preserved, Flagged;
    ObserveShape(v, c, read, before, after, claim);
    PreservedSelf(v);
    ClaimPreserves(v, c, true);
    IntentsPreserve(v, v.(hold := Some(Hold(c, LateReport))));
    IntentsPreserve(v, v.(hold := Some(Hold(c, LateSnapshot))));
  }

  lemma SubmitPreserves(v: View, c: ClientId, source: Revision)
    ensures Preserved(v, Submitting(v, c, source).view)
  {
    PreservedSelf(v);
    hide Grows, IntentsKept;
    if c in v.intents && c !in v.sources {
      GrowsBy(v.sources, c, SourceOrder(v.intents[c].terms, c));
    }
  }

  /** A reconciliation writes broker orders and executions only. */
  lemma ReconcileFrame(v: View, p: Proposal, r: Report)
    ensures var u := Reconciling(v, p, r).view; u == v.(orders := u.orders, executions := u.executions)
  {
    hide ReportOk, RevisionFault, Retains, Added, StoredOf, BrokerUsed;
  }

  /** An observation writes nothing, a hold, or one claim flag. */
  ghost predicate Observed(v: View, u: View, c: ClientId)
  {
    || u == v
    || (v.hold.None? && u == v.(hold := Some(Hold(c, LateReport))))
    || (v.hold.None? && u == v.(hold := Some(Hold(c, LateSnapshot))))
    || (v.hold.None? && c in v.intents && u == Flagged(v, c, true))
  }

  lemma ObserveShape(v: View, c: ClientId, read: Option<Report>, before: Option<Snapshot>, after: Option<Snapshot>, claim: Option<Guarded>)
    ensures Observed(v, Observing(v, c, read, before, after, claim).view, c)
    ensures claim.None? ==> Observing(v, c, read, before, after, claim).view.intents == v.intents
  {
    hide Parent, StablePair, ClaimFits, Accepts, Flagged;
  }

  lemma ReconcilePreserves(v: View, p: Proposal, r: Report)
    ensures Preserved(v, Reconciling(v, p, r).view)
  {
    hide Reconciling, Preserved, Grows;
    ReconcileFrame(v, p, r);
    IntentsPreserve(v, Reconciling(v, p, r).view);
  }

  lemma HandoffPreserves(v: View, p: Proposal, r: Report, next: Proposal, rules: Rules, before: Option<Snapshot>, after: Option<Snapshot>)
    requires next.client !in v.intents ==> next.client !in v.proposals
    requires p.client !in v.resolutions ==> p.client !in v.snapshots
    ensures Preserved(v, HandingOff(v, p, r, next, rules, before, after).view)
  {
    hide StablePair, Continues, ProposalOk, AnyUnresolved, Terminal;
    PreservedSelf(v);
    hide Grows;
    var u := HandingOff(v, p, r, next, rules, before, after).view;
    if HandingOff(v, p, r, next, rules, before, after).answer == HandedOff {
      GrowsBy(v.proposals, next.client, u.proposals[next.client]);
      GrowsBy(v.resolutions, p.client, u.resolutions[p.client]);
      GrowsBy(v.snapshots, p.client, u.snapshots[p.client]);
    }
  }

  lemma HandoffFresh(v: View, p: ClientId, next: ClientId)
    requires Invariant(v)
    ensures next !in v.intents ==> next !in v.proposals
    ensures p !in v.resolutions ==> p !in v.snapshots
  {
    hide LineOk, LinksOk, OrdersOk, SourcesOk;
  }

  lemma InitializePreserves(v: View)
    ensures Preserved(v, Initialized(v).view)
  {
    hide Preserved;
    IntentsPreserve(v, Initialized(v).view);
  }

  lemma ApplyPreserves(v: View, s: Step)
    requires Invariant(v)
    ensures Preserved(v, Apply(v, s).view)
  {
    hide Invariant, Preserved, Accepts, Flagged, Preparing, Recording, Submitting, Reconciling, HandingOff, Observing, Initialized;
    PreservedSelf(v);
    match s
    case Initialize => InitializePreserves(v);
    case Prepare(t, r) => PreparePreserves(v, t, r);
    case Record(p, source, r) => RecordPreserves(v, p, source, r);
    case Claim(c, source, r) => ClaimPreserves(v, c, true);
    case Submit(c, source) => SubmitPreserves(v, c, source);
    case Adopt(c) => ClaimPreserves(v, c, false);
    case Reconcile(p, r) => ReconcilePreserves(v, p, r);
    case Handoff(p, r, next, rules, before, after) =>
      HandoffFresh(v, p.client, next.client);
      HandoffPreserves(v, p, r, next, rules, before, after);
    case Observe(c, read, before, after, claim) => ObservePreserves(v, c, read, before, after, claim);
  }

  lemma {:induction false} RunPreserves(steps: seq<Step>, k: nat)
    requires Possible(steps) && k <= |steps|
    ensures Possible(steps[..k]) && Preserved(RunOf(steps[..k]), RunOf(steps))
  {
    hide Preserved, Apply, Enabled;
    if k == |steps| {
      assert steps[..k] == steps;
      PreservedSelf(RunOf(steps));
    } else {
      var front := steps[..|steps| - 1];
      assert front[..k] == steps[..k];
      RunPreserves(front, k);
      RunKeeps(front);
      ApplyPreserves(RunOf(front), steps[|steps| - 1]);
      PreservedThrough(RunOf(steps[..k]), RunOf(front), RunOf(steps));
    }
  }

  /** What a process learned from its own transaction stays true whatever others do in between. */
  lemma KnowledgeStays(steps: seq<Step>, k: nat, s: Step)
    requires Possible(steps) && k <= |steps| && Enabled(RunOf(steps[..k]), s)
    ensures Enabled(RunOf(steps), s)
  {
    RunPreserves(steps, k);
    hide Possible, RunOf, ProposalOk, ReportOk;
  }

  // ----- which tables each transaction writes, and what a hold stops

  /** The same broker orders and executions. */
  ghost predicate SameBooks(v: View, u: View) { u.orders == v.orders && u.executions == v.executions }

  lemma InitializeFrame(v: View)
    ensures var u := Initialized(v).view; SameBooks(v, u) && u.sources == v.sources && u.hold == v.hold && u.rows == v.rows && u.intents.Keys == v.intents.Keys
    ensures forall c <- v.intents :: c in Initialized(v).view.intents && Initialized(v).view.intents[c].claimed == v.intents[c].claimed
  {}

  lemma PrepareFrame(v: View, t: Terms, r: Rules)
    ensures var u := Preparing(v, t, r).view; SameBooks(v, u) && u.sources == v.sources && (v.hold.Some? ==> u == v)
  {
    hide IntentOk, Accepts, AnyUnresolved;
  }

  lemma RecordFrame(v: View, p: Proposal, source: Revision, r: Rules)
    ensures var u := Recording(v, p, source, r).view; SameBooks(v, u) && u.sources == v.sources && u.hold == v.hold && u.rows == v.rows && u.intents == v.intents
  {}

  lemma ClaimFrame(v: View, c: ClientId, source: Revision, r: Rules)
    ensures var u := Claiming(v, c, source, r).view; SameBooks(v, u) && u.sources == v.sources && (v.hold.Some? ==> u == v)
  {
    hide Accepts, Flagged;
    FlaggedFrame(v, c, true);
  }

  lemma FlaggedFrame(v: View, c: ClientId, claimed: bool)
    ensures c in v.intents ==>
      var u := Flagged(v, c, claimed);
      && SameBooks(v, u) && u.sources == v.sources && u.hold == v.hold && u.rows == v.rows && u.intents.Keys == v.intents.Keys
      && forall d <- v.intents :: d in u.intents && (u.intents[d].claimed ==> v.intents[d].claimed || (claimed && d == c))
  {
    if c in v.intents {
      assert v.intents[c := v.intents[c].(claimed := claimed)].Keys == v.intents.Keys;
    }
  }

  lemma SubmitFrame(v: View, c: ClientId, source: Revision)
    ensures var u := Submitting(v, c, source).view; u == v.(sources := u.sources)
  {
    hide SourceFits;
  }

  lemma AdoptFrame(v: View, c: ClientId)
    ensures var u := Adopting(v, c).view; SameBooks(v, u) && u.sources == v.sources && u.hold == v.hold && u.rows == v.rows && u.intents.Keys == v.intents.Keys
    ensures forall d <- v.intents :: d in Adopting(v, c).view.intents && (Adopting(v, c).view.intents[d].claimed ==> v.intents[d].claimed)
  {
    hide Flagged, SourceFits;
    FlaggedFrame(v, c, false);
  }

  lemma HandoffFrame(v: View, p: Proposal, r: Report, next: Proposal, rules: Rules, before: Option<Snapshot>, after: Option<Snapshot>)
    ensures var u := HandingOff(v, p, r, next, rules, before, after).view;
      && SameBooks(v, u) && u.sources == v.sources
      && (v.hold.Some? ==> u == v)
  {
    hide StablePair, Continues, ProposalOk, AnyUnresolved, Terminal;
  }

  lemma ObserveFrame(v: View, c: ClientId, read: Option<Report>, before: Option<Snapshot>, after: Option<Snapshot>, claim: Option<Guarded>)
    ensures var u := Observing(v, c, read, before, after, claim).view; SameBooks(v, u) && u.sources == v.sources && (v.hold.Some? ==> u == v)
  {
    hide Observing, Flagged;
    ObserveShape(v, c, read, before, after, claim);
    FlaggedFrame(v, c, true);
  }

  /** Only a submission writes synthetic orders, and only a reconciliation writes broker orders and executions. */
  lemma ApplyFrame(v: View, s: Step)
    ensures !s.Submit? ==> Apply(v, s).view.sources == v.sources
    ensures !s.Reconcile? ==> Apply(v, s).view.orders == v.orders && Apply(v, s).view.executions == v.executions
    ensures v.hold.Some? ==> Latched(v, Apply(v, s).view)
  {
    hide Initialized, Preparing, Recording, Claiming, Submitting, Adopting, Reconciling, HandingOff, Observing;
    match s
    case Initialize => InitializeFrame(v);
    case Prepare(t, r) => PrepareFrame(v, t, r);
    case Record(p, source, r) => RecordFrame(v, p, source, r);
    case Claim(c, source, r) => ClaimFrame(v, c, source, r);
    case Submit(c, source) => SubmitFrame(v, c, source);
    case Adopt(c) => AdoptFrame(v, c);
    case Reconcile(p, r) => ReconcileFrame(v, p, r);
    case Handoff(p, r, next, rules, before, after) => HandoffFrame(v, p, r, next, rules, before, after);
    case Observe(c, read, before, after, claim) => ObserveFrame(v, c, read, before, after, claim);
  }

  // ----- one order per client

  /** How often a run wrote a synthetic order for a client. */
  function Written(steps: seq<Step>, c: ClientId): nat
  {
    if steps == [] then 0
    else
      var front, last := steps[..|steps| - 1], steps[|steps| - 1];
      Written(front, c) + (if last.Submit? && last.client == c && Apply(RunOf(front), last).answer == Yes then 1 else 0)
  }

  /** At most one order is ever written per client, whatever the claimers were
      told, and it is the one that is stored. */
  lemma {:induction false} OneOrder(steps: seq<Step>, c: ClientId)
    ensures Written(steps, c) == if c in RunOf(steps).sources then 1 else 0
  {
    if steps != [] {
      OneOrder(steps[..|steps| - 1], c);
      SourcesStep(RunOf(steps[..|steps| - 1]), steps[|steps| - 1], c);
      hide Apply;
    }
  }

  lemma SourcesStep(v: View, s: Step, c: ClientId)
    ensures var o := Apply(v, s);
      c in o.view.sources <==> c in v.sources || (s.Submit? && s.client == c && o.answer == Yes)
    ensures s.Submit? && s.client == c && c in v.sources ==> Apply(v, s).answer != Yes
  {
    ApplyFrame(v, s);
    hide Preparing, Recording, Claiming, Adopting, Reconciling, HandingOff, Observing, Initialized;
  }

  /** Two claimers can both be told yes, the second after a rearm, and both submit: the second submission writes nothing. */
  lemma TwoClaimersOneOrder(t: Terms, r: Rules)
    requires IntentOk(t) && Accepts(r, t)
    ensures var c := t.client;
      var run := [Prepare(t, r), Claim(c, t.source, r), Adopt(c), Claim(c, t.source, r), Submit(c, t.source)];
      && Possible(run) && Written(run, c) == 1
      && Apply(RunOf(run[..1]), run[1]).answer == Yes && Apply(RunOf(run[..3]), run[3]).answer == Yes
      && Apply(RunOf(run), Submit(c, t.source)).answer == No
  {
    hide IntentOk, Accepts, RunOf, Possible, Written, AnyUnresolved;
    var c := t.client;
    var run := [Prepare(t, r), Claim(c, t.source, r), Adopt(c), Claim(c, t.source, r), Submit(c, t.source)];
    var row := IntentRow(t, r, false, false);
    var ready, claimed := Empty.(intents := map[c := row], rows := [c]), Empty.(intents := map[c := row.(claimed := true)], rows := [c]);
    NoSteps();
    FirstPrepared(t, r);
    ClaimedAndRearmed(t, r, ready, claimed);
    assert [] + [run[0]] == [run[0]] && [run[0]] + [run[1]] == [run[0], run[1]];
    assert [run[0], run[1]] + [run[2]] == [run[0], run[1], run[2]];
    assert [run[0], run[1], run[2]] + [run[3]] == [run[0], run[1], run[2], run[3]];
    OneStep([], run[0], Empty, ready);
    OneStep([run[0]], run[1], ready, claimed);
    OneStep([run[0], run[1]], run[2], claimed, ready);
    OneStep([run[0], run[1], run[2]], run[3], ready, claimed);
    var u := Submitting(claimed, c, t.source).view;
    OneStep([run[0], run[1], run[2], run[3]], run[4], claimed, u);
    assert run[..1] == [run[0]] && run[..3] == [run[0], run[1], run[2]];
    assert run == [run[0], run[1], run[2], run[3]] + [run[4]];
    OneOrder(run, c);
  }

  lemma NoSteps()
    ensures RunOf([]) == Empty && Possible([])
  {}

  lemma OneStep(steps: seq<Step>, s: Step, v: View, u: View)
    requires Possible(steps) && RunOf(steps) == v && Enabled(v, s) && Apply(v, s).view == u
    ensures Possible(steps + [s]) && RunOf(steps + [s]) == u
  {
    hide Apply, Enabled;
    assert (steps + [s])[..|steps|] == steps;
  }

  lemma FirstPrepared(t: Terms, r: Rules)
    requires IntentOk(t) && Accepts(r, t)
    ensures Preparing(Empty, t, r) == Outcome(Empty.(intents := map[t.client := IntentRow(t, r, false, false)], rows := [t.client]), Yes)
  {
    hide IntentOk, Accepts;
    assert !AnyUnresolved(Empty, None);
  }

  lemma ClaimedAndRearmed(t: Terms, r: Rules, ready: View, claimed: View)
    requires Accepts(r, t) && ready == Empty.(intents := map[t.client := IntentRow(t, r, false, false)], rows := [t.client])
    requires claimed == Empty.(intents := map[t.client := IntentRow(t, r, false, true)], rows := [t.client])
    ensures Claiming(ready, t.client, t.source, r) == Outcome(claimed, Yes)
    ensures Adopting(claimed, t.client) == Outcome(ready, Rearmed)
    ensures var u := Submitting(claimed, t.client, t.source).view;
      t.client in u.sources && Submitting(u, t.client, t.source).answer == No
  {
    hide Accepts;
    var c := t.client;
    assert ready.intents[c := ready.intents[c].(claimed := true)] == claimed.intents;
    assert claimed.intents[c := claimed.intents[c].(claimed := false)] == ready.intents;
  }

  /** A stored order has its intent claimed and its exact terms; and once stored
      it stays, so its intent is never rearmed. */
  lemma {:induction false} OrdersHaveClaims(steps: seq<Step>, c: ClientId)
    requires Possible(steps) && c in RunOf(steps).sources
    ensures var v := RunOf(steps);
      c in v.intents && v.intents[c].claimed && v.sources[c] == SourceOrder(v.intents[c].terms, c)
  {
    RunKeeps(steps);
    hide LineOk, LinksOk, ProposalsOk, OrdersOk, ResolvedOk, RunOf, Possible;
  }

  /** At every moment, also right after a handoff, at most one intent is
      unresolved; and except before the first preparation exactly one is. */
  lemma {:induction false} OneUnresolved(steps: seq<Step>)
    requires Possible(steps)
    ensures var v := RunOf(steps);
      if v.rows == [] then v.intents == map[]
      else
        var last := v.rows[|v.rows| - 1];
        forall c :: c in v.intents && c !in v.resolutions <==> c == last
  {
    hide Invariant, RunOf, Possible;
    RunKeeps(steps);
    LastOpen(RunOf(steps));
  }

  lemma LastOpen(v: View)
    requires Invariant(v)
    ensures
      if v.rows == [] then v.intents == map[]
      else
        var last := v.rows[|v.rows| - 1];
        forall c :: c in v.intents && c !in v.resolutions <==> c == last
  {
    hide LinksOk, ProposalsOk, OrdersOk, ResolvedOk, SourcesOk, LineOk;
    LineLast(v.rows, v.intents.Keys, v.resolutions.Keys);
    if v.rows == [] {
      assert forall c :: c !in v.intents.Keys;
    } else {
      assert forall c :: c in v.intents.Keys && c !in v.resolutions.Keys <==> c == v.rows[|v.rows| - 1];
    }
  }

  lemma LineLast(rows: seq<ClientId>, clients: set<ClientId>, resolved: set<ClientId>)
    requires LineOk(rows, clients, resolved)
    ensures forall c :: c in clients && c !in resolved <==> rows != [] && c == rows[|rows| - 1]
    ensures rows == [] ==> forall c :: c !in clients
  {
    forall c
      ensures c in clients && c !in resolved <==> rows != [] && c == rows[|rows| - 1]
    {
      if c in rows {
        var i: nat :| i < |rows| && rows[i] == c;
        assert rows[i] in resolved <==> i + 1 < |rows|;
      }
    }
  }

  // ----- reports of one order

  /** A later state of an order: the revision moves up by at most one, stored
      executions are only appended, and a terminal order is frozen. */
  ghost predicate Advances(v: View, u: View, c: ClientId)
  {
    && c in v.orders && c in v.executions && c in u.orders && c in u.executions
    && v.orders[c].revision <= u.orders[c].revision
    && v.executions[c] <= u.executions[c]
    && (Terminal(v.orders[c].status) ==> u.orders[c] == v.orders[c] && u.executions[c] == v.executions[c])
  }

  /** One transaction's effect on an order: it appears at revision 1, or advances by at most one. */
  ghost predicate StepsOrder(v: View, u: View, c: ClientId)
  {
    && (c in v.orders ==> Advances(v, u, c) && u.orders[c].revision <= v.orders[c].revision + 1)
    && (c !in v.orders && c in u.orders ==> u.orders[c].revision == 1)
  }

  lemma {:induction false} OrderStep(v: View, s: Step, c: ClientId)
    requires Invariant(v)
    ensures StepsOrder(v, Apply(v, s).view, c)
  {
    hide Invariant, OrderFits, StepsOrder, Preparing, Recording, Claiming, Submitting, Adopting, Reconciling, HandingOff, Observing,
      Initialized, Latched, ReportOk;
    if c in v.orders {
      OrderStored(v, c);
    }
    match s
    case Reconcile(p, r) => ReconcileStep(v, p, r, c);
    case _ =>
      ApplyFrame(v, s);
      SameOrders(v, Apply(v, s).view, c);
  }

  lemma SameOrders(v: View, u: View, c: ClientId)
    requires u.orders == v.orders && u.executions == v.executions && (c in v.orders ==> c in v.executions)
    ensures StepsOrder(v, u, c)
  {}

  lemma ReconcileStep(v: View, p: Proposal, r: Report, c: ClientId)
    requires Invariant(v) && (c in v.orders ==> c in v.executions)
    ensures StepsOrder(v, Reconciling(v, p, r).view, c)
  {
    hide LineOk, LinksOk, ProposalsOk, ResolvedOk, SourcesOk, OrderFits, ReportOk, Retains, Added, Terminal, BrokerUsed;
    if Reconciling(v, p, r).answer == HoldReport {
      ReportClient(p, r);
      if p.client == c && c in v.orders && Terminal(v.orders[c].status) {
        ReconcileFrozen(v, p, r);
      }
    }
  }

  lemma ReportClient(p: Proposal, r: Report)
    ensures ReportOk(p, r) ==> r.client == p.client
  {}

  lemma {:induction false} OrderAdvances(steps: seq<Step>, k: nat, c: ClientId)
    requires Possible(steps) && k <= |steps| && c in RunOf(steps[..k]).orders
    ensures Advances(RunOf(steps[..k]), RunOf(steps), c)
  {
    hide Apply, Enabled, Invariant;
    if k == |steps| {
      assert steps[..k] == steps;
      RunKeeps(steps);
      OrderStored(RunOf(steps), c);
    } else {
      var front := steps[..|steps| - 1];
      assert front[..k] == steps[..k];
      OrderAdvances(front, k, c);
      RunKeeps(front);
      OrderStep(RunOf(front), steps[|steps| - 1], c);
    }
  }

  lemma OrderStored(v: View, c: ClientId)
    requires Invariant(v) && c in v.orders
    ensures c in v.executions && c in v.proposals && OrderFits(c, v.orders[c], v.proposals[c].proposal, v.executions[c])
  {
    hide LineOk, LinksOk, ProposalsOk, ResolvedOk, SourcesOk;
    assert c in v.executions.Keys <==> c in v.orders.Keys;
  }

  lemma {:induction false} QuantitiesGrow(a: seq<Execution>, b: seq<Execution>)
    requires a <= b && forall i :: 0 <= i < |b| ==> b[i].quantity > 0.0
    ensures Quantities(a) <= Quantities(b)
    decreases |b|
  {
    if a != b {
      QuantitiesGrow(a, b[..|b| - 1]);
    }
  }

  /** The filled quantity of an order never falls from one moment to a later
      one, and never exceeds what its proposal asked for. */
  lemma FilledNeverFalls(steps: seq<Step>, k: nat, c: ClientId)
    requires Possible(steps) && k <= |steps| && c in RunOf(steps[..k]).orders
    ensures var v, u := RunOf(steps[..k]), RunOf(steps);
      && c in u.proposals
      && 0.0 <= Quantities(StoredOf(v, c)) <= Quantities(StoredOf(u, c)) <= u.proposals[c].proposal.quantity
  {
    hide Invariant, Possible, RunOf, Quantities;
    OrderAdvances(steps, k, c);
    RunKeeps(steps);
    var v, u := RunOf(steps[..k]), RunOf(steps);
    ReportBalances(u, c);
    StoredPositive(u, c);
    QuantitiesGrow(StoredOf(v, c), StoredOf(u, c));
    QuantitiesGrow([], StoredOf(v, c));
    assert Quantities([]) == 0.0 by { NothingFilled(); }
  }

  lemma NothingFilled()
    ensures Quantities([]) == 0.0
  {}

  lemma StoredPositive(v: View, c: ClientId)
    requires Invariant(v) && c in v.orders
    ensures forall i :: 0 <= i < |StoredOf(v, c)| ==> StoredOf(v, c)[i].quantity > 0.0
  {
    hide Invariant, CashFlows, Quantities, Added;
    OrderStored(v, c);
    var r := v.orders[c].report;
    assert ExecutionsOk(r.executions);
    forall i | 0 <= i < |StoredOf(v, c)|
      ensures StoredOf(v, c)[i].quantity > 0.0
    {
      assert StoredOf(v, c)[i] in r.executions;
    }
  }

  // ----- conservation along the line of handoffs

  lemma {:induction false} QuantitiesConcat(a: seq<Execution>, b: seq<Execution>)
    ensures Quantities(a + b) == Quantities(a) + Quantities(b)
  {
    if b == [] {
      assert a + b == a;
    } else {
      assert (a + b)[..|a + b| - 1] == a + b[..|b| - 1];
      QuantitiesConcat(a, b[..|b| - 1]);
    }
  }

  lemma {:induction false} CashFlowsConcat(side: Side, a: seq<Execution>, b: seq<Execution>)
    ensures CashFlows(side, a + b) == CashFlows(side, a) + CashFlows(side, b)
  {
    hide CashFlow;
    if b == [] {
      assert a + b == a;
    } else {
      assert (a + b)[..|a + b| - 1] == a + b[..|b| - 1];
      CashFlowsConcat(side, a, b[..|b| - 1]);
    }
  }

  /** The order of rows does not matter to the sums. */
  lemma {:induction false} SameSums(side: Side, a: seq<Execution>, b: seq<Execution>)
    requires SameRows(a, b)
    ensures Quantities(a) == Quantities(b) && CashFlows(side, a) == CashFlows(side, b)
    decreases |a|
  {
    hide Quantities, CashFlows;
    if a == [] {
      FirstIn(b);
    } else {
      var x, front := a[|a| - 1], a[..|a| - 1];
      assert a == front + [x] && x in a;
      var k :| 0 <= k < |b| && b[k] == x;
      var rest := b[..k] + b[k + 1..];
      WithoutRow(front, x, b, k);
      SameSums(side, front, rest);
      hide SameRows;
      SumsLast(side, a);
      SumsWithout(side, b, k);
    }
  }

  lemma SumsLast(side: Side, a: seq<Execution>)
    requires a != []
    ensures Quantities(a) == Quantities(a[..|a| - 1]) + a[|a| - 1].quantity
    ensures CashFlows(side, a) == CashFlows(side, a[..|a| - 1]) + CashFlow(side, a[|a| - 1])
  {}

  lemma FirstIn<T>(s: seq<T>)
    ensures s != [] ==> s[0] in s
  {}

  lemma WithoutRow(front: seq<Execution>, x: Execution, b: seq<Execution>, k: nat)
    requires SameRows(front + [x], b) && k < |b| && b[k] == x
    ensures SameRows(front, b[..k] + b[k + 1..])
  {
    var a, rest := front + [x], b[..k] + b[k + 1..];
    forall i, j | 0 <= i < j < |front|
      ensures front[i].id != front[j].id
    {
      assert a[i] == front[i] && a[j] == front[j];
    }
    forall i, j | 0 <= i < j < |rest|
      ensures rest[i].id != rest[j].id
    {
      assert rest[i] == b[if i < k then i else i + 1] && rest[j] == b[if j < k then j else j + 1];
    }
    forall e
      ensures e in front <==> e in rest
    {
      assert e in a <==> e in b;
      if e in front {
        var i :| 0 <= i < |front| && front[i] == e;
        assert a[i].id != a[|front|].id;
        var j :| 0 <= j < |b| && b[j] == e;
        assert rest[if j < k then j else j - 1] == e;
      }
      if e in rest {
        var j :| 0 <= j < |rest| && rest[j] == e;
        assert b[if j < k then j else j + 1] == e;
        assert e.id != x.id;
        var i :| 0 <= i < |a| && a[i] == e;
        assert front[i] == e;
      }
    }
  }

  lemma SumsWithout(side: Side, b: seq<Execution>, k: nat)
    requires k < |b|
    ensures var rest := b[..k] + b[k + 1..];
      && Quantities(b) == Quantities(rest) + b[k].quantity
      && CashFlows(side, b) == CashFlows(side, rest) + CashFlow(side, b[k])
  {
    hide CashFlow;
    var x := b[k];
    assert b == (b[..k] + [x]) + b[k + 1..];
    assert (b[..k] + [x])[..k] == b[..k];
    QuantitiesConcat(b[..k] + [x], b[k + 1..]);
    CashFlowsConcat(side, b[..k] + [x], b[k + 1..]);
    QuantitiesConcat(b[..k], b[k + 1..]);
    CashFlowsConcat(side, b[..k], b[k + 1..]);
  }

  // ----- the account in plain sums

  /** What executions traded, quantity times price, what they moved, and what they charged. */
  function Traded(s: seq<Execution>): real
  {
    if s == [] then 0.0 else Traded(s[..|s| - 1]) + s[|s| - 1].quantity * s[|s| - 1].price
  }

  function Moved(s: seq<Execution>): real { if s == [] then 0.0 else Moved(s[..|s| - 1]) + s[|s| - 1].quantity }

  function Charged(s: seq<Execution>): real { if s == [] then 0.0 else Charged(s[..|s| - 1]) + s[|s| - 1].fee }

  lemma {:induction false} FlowsSplit(side: Side, s: seq<Execution>)
    ensures CashFlows(side, s) == (if side == Buy then -Traded(s) else Traded(s)) - Charged(s)
    ensures HoldingFlows(side, s) == if side == Buy then Moved(s) else -Moved(s)
  {
    if s != [] {
      FlowsSplit(side, s[..|s| - 1]);
    }
  }

  /** What an accepted report does to the account its proposal opened with: a
      purchase costs what was traded and the fees, a sale brings what was traded
      less the fees. */
  lemma AcceptedAccount(p: Proposal, r: Report)
    requires ReportOk(p, r)
    ensures p.side == Buy ==> r.cash + Charged(r.executions) == p.cash - Traded(r.executions)
    ensures p.side == Sell ==> r.cash + Charged(r.executions) == p.cash + Traded(r.executions)
    ensures r.holding == if p.side == Buy then p.units + Moved(r.executions) else p.units - Moved(r.executions)
    ensures r.status == Filled <==> Moved(r.executions) == p.quantity
    ensures r.status == PartiallyFilled ==> 0.0 < Moved(r.executions) < p.quantity
    ensures r.status == Submitted ==> Moved(r.executions) == 0.0
    ensures Moved(r.executions) <= p.quantity
  {
    hide CashFlows, HoldingFlows, Traded, Charged, ExecutionsOk;
    FlowsSplit(p.side, r.executions);
    MovedIs(r.executions);
  }

  lemma {:induction false} MovedIs(s: seq<Execution>)
    ensures Quantities(s) == Moved(s)
  {
    if s != [] {
      MovedIs(s[..|s| - 1]);
    }
  }

  /** The same sums over all stored executions of one side of the first `n` intents of the line. */
  ghost function LineTraded(v: View, n: nat, side: Side): real
    requires n <= |v.rows|
  {
    if n == 0 then 0.0
    else
      var c := v.rows[n - 1];
      LineTraded(v, n - 1, side) + (if c in v.proposals && v.proposals[c].proposal.side == side then Traded(StoredOf(v, c)) else 0.0)
  }

  ghost function LineMoved(v: View, n: nat, side: Side): real
    requires n <= |v.rows|
  {
    if n == 0 then 0.0
    else
      var c := v.rows[n - 1];
      LineMoved(v, n - 1, side) + (if c in v.proposals && v.proposals[c].proposal.side == side then Moved(StoredOf(v, c)) else 0.0)
  }

  ghost function LineCharged(v: View, n: nat): real
    requires n <= |v.rows|
  {
    if n == 0 then 0.0
    else
      var c := v.rows[n - 1];
      LineCharged(v, n - 1) + (if c in v.proposals then Charged(StoredOf(v, c)) else 0.0)
  }

  lemma ReportBalances(v: View, c: ClientId)
    requires Invariant(v) && c in v.orders
    ensures c in v.proposals
    ensures var p, r := v.proposals[c].proposal, v.orders[c].report;
      && r.cash == p.cash + CashFlows(p.side, StoredOf(v, c)) && r.holding == p.units + HoldingFlows(p.side, StoredOf(v, c))
      && Quantities(StoredOf(v, c)) <= p.quantity
  {
    hide Invariant, CashFlow, CashFlows, Quantities, SameRows, ExecutionsOk;
    OrderStored(v, c);
    SameSums(v.proposals[c].proposal.side, v.executions[c], v.orders[c].report.executions);
  }

  lemma BalancesSplit(v: View, c: ClientId)
    requires Invariant(v) && c in v.orders
    ensures c in v.proposals
    ensures var p, r, stored := v.proposals[c].proposal, v.orders[c].report, StoredOf(v, c);
      && r.cash + Charged(stored) == (if p.side == Buy then p.cash - Traded(stored) else p.cash + Traded(stored))
      && r.holding == (if p.side == Buy then p.units + Moved(stored) else p.units - Moved(stored))
  {
    hide Invariant, CashFlows, HoldingFlows, StoredOf, Traded, Moved, Charged, Quantities;
    ReportBalances(v, c);
    FlowsSplit(v.proposals[c].proposal.side, StoredOf(v, c));
  }

  lemma LineStart(v: View)
    ensures forall side :: LineTraded(v, 0, side) == 0.0 && LineMoved(v, 0, side) == 0.0
    ensures LineCharged(v, 0) == 0.0
  {}

  lemma LineStep(v: View, n: nat)
    requires n < |v.rows| && v.rows[n] in v.proposals
    ensures var side, stored := v.proposals[v.rows[n]].proposal.side, StoredOf(v, v.rows[n]);
      && LineTraded(v, n + 1, Buy) == LineTraded(v, n, Buy) + (if side == Buy then Traded(stored) else 0.0)
      && LineTraded(v, n + 1, Sell) == LineTraded(v, n, Sell) + (if side == Sell then Traded(stored) else 0.0)
      && LineMoved(v, n + 1, Buy) == LineMoved(v, n, Buy) + (if side == Buy then Moved(stored) else 0.0)
      && LineMoved(v, n + 1, Sell) == LineMoved(v, n, Sell) + (if side == Sell then Moved(stored) else 0.0)
      && LineCharged(v, n + 1) == LineCharged(v, n) + Charged(stored)
  {
    hide StoredOf, Traded, Moved, Charged;
  }

  /** The account after the first `n` intents of the line: what was sold came in, what was bought and the fees went out. */
  ghost predicate Conserved(v: View, first: Proposal, r: Report, n: nat)
    requires n <= |v.rows|
  {
    && r.cash + LineCharged(v, n) + LineTraded(v, n, Buy) == first.cash + LineTraded(v, n, Sell)
    && r.holding + LineMoved(v, n, Sell) == first.units + LineMoved(v, n, Buy)
  }

  /** Cash and holding of any accepted report along the line equal the opening
      account of the first proposal plus every execution stored since. */
  lemma {:induction false} Conservation(v: View, j: nat)
    requires Invariant(v) && j < |v.rows| && v.rows[j] in v.orders
    ensures v.rows[0] in v.proposals && Conserved(v, v.proposals[v.rows[0]].proposal, v.orders[v.rows[j]].report, j + 1)
  {
    hide Invariant, Traded, Moved, Charged, StoredOf, LineTraded, LineMoved, LineCharged;
    BalancesSplit(v, v.rows[j]);
    LineStep(v, j);
    LineStart(v);
    if j > 0 {
      HandedAccount(v, j);
      Conservation(v, j - 1);
    }
  }

  /** The next proposal opens with the account a report closed with, marked at its
      own limit, one hour later in the same experiment and instrument. */
  ghost predicate Succeeds(p: Proposal, r: Report, next: Proposal)
  {
    && next.cash == r.cash && next.units == r.holding && next.equity == r.cash + r.holding * next.limit
    && next.open == p.open + 1 && next.experiment == p.experiment && next.instrument == p.instrument && next.source == OfReport(r)
  }

  /** A successor opens so after its predecessor's terminal report. */
  lemma {:induction false} HandedAccount(v: View, j: nat)
    requires Invariant(v) && 0 < j < |v.rows|
    ensures var prior, c := v.rows[j - 1], v.rows[j];
      && prior in v.orders && prior in v.proposals && c in v.proposals
      && (v.orders[prior].status == Filled || v.orders[prior].status == Canceled)
      && Succeeds(v.proposals[prior].proposal, v.orders[prior].report, v.proposals[c].proposal)
  {
    hide LineOk, ProposalsOk, OrdersOk, ResolvedOk, SourcesOk;
    assert Linked(v.proposals, v.orders, v.intents, v.rows[j - 1], v.rows[j]);
  }

  lemma {:induction false} RunConserves(steps: seq<Step>, j: nat)
    requires Possible(steps) && j < |RunOf(steps).rows| && RunOf(steps).rows[j] in RunOf(steps).orders
    ensures var v := RunOf(steps);
      v.rows[0] in v.proposals && Conserved(v, v.proposals[v.rows[0]].proposal, v.orders[v.rows[j]].report, j + 1)
  {
    hide Invariant, RunOf, Possible, Conserved;
    RunKeeps(steps);
    Conservation(RunOf(steps), j);
  }

  // ----- the hold latch

  /** Under a hold no intent is created and none is newly claimed. */
  ghost predicate Latched(v: View, u: View)
  {
    && u.hold == v.hold && u.rows == v.rows && u.intents.Keys == v.intents.Keys
    && forall c <- v.intents :: c in u.intents && (u.intents[c].claimed ==> v.intents[c].claimed)
  }

  /** Once a late change is recorded, no later step of any process creates an intent or claims one. */
  lemma {:induction false} HoldLatches(steps: seq<Step>, k: nat)
    requires k <= |steps| && RunOf(steps[..k]).hold.Some?
    ensures Latched(RunOf(steps[..k]), RunOf(steps))
  {
    hide Apply;
    if k == |steps| {
      assert steps[..k] == steps;
    } else {
      var front := steps[..|steps| - 1];
      assert front[..k] == steps[..k];
      HoldLatches(front, k);
      ApplyFrame(RunOf(front), steps[|steps| - 1]);
    }
  }

  // ----- guarded claims

  /** A guarded successor is claimed only by an observation whose report and
      whose two snapshot reads equal what was stored when it was handed off by
      the intent before it. */
  lemma {:induction false} GuardedClaim(v: View, s: Step, i: nat)
    requires Invariant(v) && Enabled(v, s) && 0 < i < |v.rows|
    requires var c := v.rows[i]; c in v.intents && !v.intents[c].claimed && c in Apply(v, s).view.intents && Apply(v, s).view.intents[c].claimed
    ensures var prior := v.rows[i - 1];
      && s.Observe? && s.successor == v.rows[i] && s.claim.Some? && v.hold.None?
      && prior in v.orders && prior in v.snapshots && prior in v.resolutions
      && s.read == Some(v.orders[prior].report) && s.before == s.after == Some(v.snapshots[prior])
  {
    hide Invariant, Parent, Preparing, Recording, Claiming, Submitting, Adopting, Reconciling, HandingOff, Observing, Initialized, Enabled;
    var c := v.rows[i];
    LinkedParent(v, i);
    NewlyClaimed(v, s, c);
    ObserveClaims(v, c, s.read, s.before, s.after, s.claim);
  }

  /** How many reports a report goes back to through its source revisions. */
  function Depth(r: Report): nat { if r.source.OfReport? then 1 + Depth(r.source.report) else 0 }

  /** Along the line each report goes back one report more than the one before it. */
  lemma {:induction false} DepthGrows(v: View, j: nat)
    requires Invariant(v) && j < |v.rows| && v.rows[j] in v.orders
    ensures v.rows[0] in v.orders && Depth(v.orders[v.rows[j]].report) == Depth(v.orders[v.rows[0]].report) + j
  {
    hide Invariant, Linked;
    if j > 0 {
      LinkFacts(v, j);
      DepthStep(v, j);
      DepthGrows(v, j - 1);
    }
  }

  lemma DepthStep(v: View, j: nat)
    requires Invariant(v) && 0 < j < |v.rows| && v.rows[j] in v.orders && v.rows[j - 1] in v.orders
    ensures Depth(v.orders[v.rows[j]].report) == Depth(v.orders[v.rows[j - 1]].report) + 1
  {
    hide Invariant, Continues;
    LinkFacts(v, j);
    ReportSource(v, v.rows[j]);
  }

  /** A stored report names the source its intent was prepared with. */
  lemma ReportSource(v: View, c: ClientId)
    requires Invariant(v) && c in v.orders
    ensures c in v.intents && c in v.proposals && v.proposals[c].source == v.intents[c].terms.source == v.orders[c].report.source
  {
    hide Invariant, Accepts, IntentOk, SizingOk, ExecutionsOk, StatusOk, SameRows;
    OrderStored(v, c);
    ProposalMatches(v, c);
  }

  lemma ProposalMatches(v: View, c: ClientId)
    requires Invariant(v) && c in v.proposals
    ensures c in v.intents && ProposalFits(c, v.proposals[c], v.intents[c])
  {
    hide LineOk, LinksOk, OrdersOk, ResolvedOk, SourcesOk, ProposalFits;
  }

  /** No stored report is the source of the first intent, so it has no parent. */
  lemma FirstHasNoParent(v: View)
    requires Invariant(v) && v.rows != [] && v.rows[0] in v.intents
    ensures Parent(v, v.intents[v.rows[0]].terms.source).None?
  {
    hide Invariant, Linked;
    var parent := Parent(v, v.intents[v.rows[0]].terms.source);
    if parent.Some? {
      var d := parent.value;
      HasProposal(v, d);
      ProposalStored(v, d);
      var j := Position(v, d);
      DepthGrows(v, j);
      ReportSource(v, v.rows[0]);
    }
  }

  lemma Position(v: View, c: ClientId) returns (j: nat)
    requires Invariant(v) && c in v.intents
    ensures j < |v.rows| && v.rows[j] == c
  {
    hide LinksOk, ProposalsOk, OrdersOk, ResolvedOk, SourcesOk;
    assert c in v.intents.Keys;
    j :| j < |v.rows| && v.rows[j] == c;
  }

  /** Nothing claims a guarded first intent: it is guarded when its source is a
      report, and no report of the store can be the source of its first intent. */
  lemma FirstGuardedNever(v: View, s: Step)
    requires Invariant(v) && v.rows != []
    requires var c := v.rows[0]; c in v.intents && v.intents[c].guarded && !v.intents[c].claimed
    ensures var u := Apply(v, s).view; v.rows[0] in u.intents ==> !u.intents[v.rows[0]].claimed
  {
    hide Invariant, Parent, Preparing, Recording, Claiming, Submitting, Adopting, Reconciling, HandingOff, Observing, Initialized;
    var c := v.rows[0];
    if c in Apply(v, s).view.intents && Apply(v, s).view.intents[c].claimed {
      FirstHasNoParent(v);
      NewlyClaimed(v, s, c);
      ObserveClaims(v, c, s.read, s.before, s.after, s.claim);
      assert false;
    }
  }

  /** The only intent is guarded and unclaimed, and nothing was ever reported for it. */
  ghost predicate Stuck(v: View, c: ClientId)
  {
    && v.rows == [c] && c in v.intents && v.intents[c].guarded && !v.intents[c].claimed && v.orders == map[]
  }

  lemma {:induction false} StuckStays(v: View, s: Step, c: ClientId)
    requires Invariant(v) && Stuck(v, c)
    ensures Stuck(Apply(v, s).view, c) && Apply(v, s).view.sources == v.sources
  {
    hide Invariant, Preparing, Recording, Claiming, Submitting, Adopting, Reconciling, HandingOff, Observing, Initialized, Preserved;
    FirstGuardedNever(v, s);
    ApplyPreserves(v, s);
    GuardStays(v, Apply(v, s).view, c);
    ApplyFrame(v, s);
    match s
    case Initialize => InitializeFrame(v);
    case Prepare(t, r) => NothingPrepared(v, t, r);
    case Record(p, source, r) => RecordFrame(v, p, source, r);
    case Claim(d, source, r) => FlagRows(v, s);
    case Submit(d, source) => NothingSubmitted(v, d, source, c);
    case Adopt(d) => AdoptFrame(v, d);
    case Reconcile(p, r) => NothingReconciled(v, p, r, c);
    case Handoff(p, r, next, rules, before, after) => NothingHandedOff(v, p, r, next, rules, before, after);
    case Observe(d, read, before, after, claim) => FlagRows(v, s);
  }

  lemma GuardStays(v: View, u: View, c: ClientId)
    requires Preserved(v, u) && c in v.intents
    ensures c in u.intents && (v.intents[c].guarded ==> u.intents[c].guarded)
  {
    hide Grows;
  }

  lemma FlagRows(v: View, s: Step)
    requires s.Claim? || s.Observe?
    ensures Apply(v, s).view.rows == v.rows
  {
    hide Claiming, Observing;
    match s
    case Claim(d, source, r) => ClaimRows(v, d, source, r);
    case Observe(d, read, before, after, claim) => ObserveShape(v, d, read, before, after, claim);
  }

  lemma ClaimRows(v: View, d: ClientId, source: Revision, r: Rules)
    ensures Claiming(v, d, source, r).view.rows == v.rows
  {
    hide Accepts;
  }

  lemma NothingPrepared(v: View, t: Terms, r: Rules)
    requires Invariant(v) && v.rows != []
    ensures Preparing(v, t, r).view == v
  {
    hide Invariant;
    PrepareKeeps(v, t, r);
    hide IntentOk, Accepts, AnyUnresolved;
  }

  lemma NothingSubmitted(v: View, d: ClientId, source: Revision, c: ClientId)
    requires Invariant(v) && Stuck(v, c)
    ensures Submitting(v, d, source).view == v
  {
    hide Invariant, SourceFits;
    OnlyIntent(v, c);
  }

  lemma NothingReconciled(v: View, p: Proposal, r: Report, c: ClientId)
    requires Invariant(v) && Stuck(v, c)
    ensures Reconciling(v, p, r).view == v
  {
    hide Invariant, ReportOk, RevisionFault, Retains, Added, StoredOf, BrokerUsed;
    OnlyIntent(v, c);
  }

  lemma OnlyIntent(v: View, c: ClientId)
    requires Invariant(v) && Stuck(v, c)
    ensures forall d <- v.intents :: d == c
  {
    hide LinksOk, ProposalsOk, OrdersOk, ResolvedOk, SourcesOk;
    assert forall d :: d in v.intents.Keys ==> d in v.rows;
  }

  lemma NothingHandedOff(v: View, p: Proposal, r: Report, next: Proposal, rules: Rules, before: Option<Snapshot>, after: Option<Snapshot>)
    requires v.orders == map[]
    ensures HandingOff(v, p, r, next, rules, before, after).view == v
  {
    hide HandoffFault, StablePair, AnyUnresolved;
  }

  /** Once a store is stuck no later step of any process claims, submits, or
      prepares anything, or stores any order, ever again. */
  lemma {:induction false} StuckForever(steps: seq<Step>, k: nat, c: ClientId)
    requires Possible(steps) && k <= |steps| && Stuck(RunOf(steps[..k]), c)
    ensures Stuck(RunOf(steps), c) && RunOf(steps).sources == RunOf(steps[..k]).sources
  {
    hide Apply, Stuck, Enabled, Invariant;
    if k == |steps| {
      assert steps[..k] == steps;
    } else {
      var front := steps[..|steps| - 1];
      assert front[..k] == steps[..k];
      StuckForever(front, k, c);
      RunKeeps(front);
      StuckStays(RunOf(front), steps[|steps| - 1], c);
    }
  }

  /** Preparing a first intent and opening the store again before it is claimed
      gets the store stuck exactly when the intent's source names a report. */
  lemma StuckReached(t: Terms, r: Rules)
    requires IntentOk(t) && Accepts(r, t)
    ensures var run := [Prepare(t, r)] + [Initialize];
      Possible(run) && (Stuck(RunOf(run), t.client) <==> NamesReport(t.source))
  {
    hide IntentOk, Accepts, RunOf, Possible, AnyUnresolved, NamesReport;
    var ready := Empty.(intents := map[t.client := IntentRow(t, r, false, false)], rows := [t.client]);
    NoSteps();
    FirstPrepared(t, r);
    assert [] + [Prepare(t, r)] == [Prepare(t, r)];
    OneStep([], Prepare(t, r), Empty, ready);
    OneStep([Prepare(t, r)], Initialize, ready, Initialized(ready).view);
  }

  lemma ObserveClaims(v: View, c: ClientId, read: Option<Report>, before: Option<Snapshot>, after: Option<Snapshot>, claim: Option<Guarded>)
    requires c in v.intents && !v.intents[c].claimed
    requires var u := Observing(v, c, read, before, after, claim).view; c in u.intents && u.intents[c].claimed
    ensures var parent := Parent(v, v.intents[c].terms.source);
      && parent.Some? && parent.value in v.orders && parent.value in v.snapshots && parent.value in v.resolutions
      && read == Some(v.orders[parent.value].report) && before == after == Some(v.snapshots[parent.value])
  {
    hide SnapshotOk, Accepts, ClaimFits;
  }

  /** Only the two kinds of claim set a claim flag, and the plain one refuses guarded intents. */
  lemma {:induction false} NewlyClaimed(v: View, s: Step, c: ClientId)
    requires c in v.intents && !v.intents[c].claimed
    requires c in Apply(v, s).view.intents && Apply(v, s).view.intents[c].claimed
    ensures v.hold.None? && ((s.Claim? && s.client == c && !v.intents[c].guarded) || (s.Observe? && s.successor == c && s.claim.Some?))
  {
    hide Preparing, Recording, Claiming, Submitting, Adopting, Reconciling, HandingOff, Observing, Initialized;
    match s
    case Initialize => InitializeFrame(v);
    case Prepare(t, r) => PrepareFlags(v, t, r);
    case Record(p, source, r) => RecordFrame(v, p, source, r);
    case Claim(d, source, r) => ClaimFlags(v, d, source, r, c);
    case Submit(d, source) => SubmitFrame(v, d, source);
    case Adopt(d) => AdoptFrame(v, d);
    case Reconcile(p, r) => ReconcileFrame(v, p, r);
    case Handoff(p, r, next, rules, before, after) => HandoffFlags(v, p, r, next, rules, before, after);
    case Observe(d, read, before, after, claim) =>
      hide Observed;
      ObserveShape(v, d, read, before, after, claim);
      ObservedFlags(v, Observing(v, d, read, before, after, claim).view, d);
  }

  lemma PrepareFlags(v: View, t: Terms, r: Rules)
    ensures forall c <- v.intents :: c in Preparing(v, t, r).view.intents && Preparing(v, t, r).view.intents[c] == v.intents[c]
  {
    hide IntentOk, Accepts, AnyUnresolved;
  }

  lemma HandoffFlags(v: View, p: Proposal, r: Report, next: Proposal, rules: Rules, before: Option<Snapshot>, after: Option<Snapshot>)
    ensures var u := HandingOff(v, p, r, next, rules, before, after).view;
      forall c <- v.intents :: c in u.intents && u.intents[c] == v.intents[c]
  {
    hide StablePair, Continues, ProposalOk, AnyUnresolved, Terminal;
  }

  lemma ClaimFlags(v: View, d: ClientId, source: Revision, r: Rules, c: ClientId)
    requires c in v.intents && !v.intents[c].claimed
    requires var u := Claiming(v, d, source, r).view; c in u.intents && u.intents[c].claimed
    ensures v.hold.None? && d == c && !v.intents[c].guarded
  {
    hide Accepts;
  }

  lemma ObservedFlags(v: View, u: View, d: ClientId)
    requires Observed(v, u, d)
    ensures forall c <- v.intents :: c in u.intents && (u.intents[c].claimed ==> v.intents[c].claimed || (d == c && v.hold.None?))
  {}

  /** The parent the observation looks up is the intent before it in the line, and the only order with that final report. */
  lemma {:induction false} LinkedParent(v: View, i: nat)
    requires Invariant(v) && 0 < i < |v.rows| && v.rows[i] in v.intents
    ensures v.intents[v.rows[i]].guarded && Parent(v, v.intents[v.rows[i]].terms.source) == Some(v.rows[i - 1])
    ensures forall c <- v.orders :: OfReport(v.orders[c].report) == v.intents[v.rows[i]].terms.source ==> c == v.rows[i - 1]
  {
    hide Invariant, Continues;
    LinkFacts(v, i);
    forall c <- v.orders
      ensures v.orders[c].report.client == c && v.orders[c].revision == v.orders[c].report.revision
    {
      OrderIs(v, c);
    }
  }

  lemma LinkFacts(v: View, i: nat)
    requires Invariant(v) && 0 < i < |v.rows|
    ensures var prior := v.rows[i - 1];
      && Linked(v.proposals, v.orders, v.intents, prior, v.rows[i])
      && prior in v.resolutions && prior in v.snapshots && prior in v.orders && v.resolutions[prior].finalRevision == v.orders[prior].revision
  {
    hide ProposalsOk, OrdersOk, SourcesOk, Continues, LineOk;
    assert Linked(v.proposals, v.orders, v.intents, v.rows[i - 1], v.rows[i]);
    NotLast(v, i - 1);
  }

  lemma NotLast(v: View, i: nat)
    requires LineOk(v.rows, v.intents.Keys, v.resolutions.Keys) && i + 1 < |v.rows|
    ensures v.rows[i] in v.resolutions
  {
    assert v.rows[i] in v.resolutions.Keys;
  }

  lemma OrderIs(v: View, c: ClientId)
    requires Invariant(v) && c in v.orders
    ensures v.orders[c].report.client == c && v.orders[c].revision == v.orders[c].report.revision
  {
    hide Invariant, ReportOk, SameRows;
    OrderStored(v, c);
  }

  // ----- what the product rules give every stored order

  /** A whole positive number of increments. */
  ghost predicate WholeIncrements(amount: real, increment: real)
  {
    exists n: nat :: n > 0 && amount == Increments(n, increment)
  }

  function Increments(n: nat, increment: real): real { n as real * increment }

  lemma PositiveMultiple(amount: real, increment: real)
    requires amount > 0.0 && increment > 0.0 && Multiple(amount, increment)
    ensures WholeIncrements(amount, increment)
  {
    var n := (amount / increment).Floor;
    DivMul(amount, increment);
    QuotientAtLeast(amount, increment, 0.0);
    assert n as real * increment == amount;
    if n <= 0 {
      MulMono(n as real, 0.0, increment);
    }
    assert amount == Increments(n, increment);
  }

  /** An intent its rules accept is a whole positive number of increments in
      quantity and in limit, and worth at least the quote minimum. */
  lemma AcceptedOrder(r: Rules, t: Terms)
    requires IntentOk(t) && Accepts(r, t)
    ensures WholeIncrements(t.quantity, r.baseIncrement) && WholeIncrements(t.limit, r.quoteIncrement)
    ensures t.quantity >= r.baseMin && t.quantity * t.limit >= r.quoteMin > 0.0
  {
    PositiveMultiple(t.quantity, r.baseIncrement);
    PositiveMultiple(t.limit, r.quoteIncrement);
  }

  /** A plain revision counts as the hash of a report exactly with this prefix, each letter in either case. */
  lemma NamedReports(name: string)
    ensures NamesReport(Plain(name)) <==> |name| >= 13 && forall i :: 0 <= i < 13 ==> name[i] == "h1-report-v1:"[i] || name[i] == "H1-REPORT-V1:"[i]
  {
    if |name| >= 13 {
      forall i | 0 <= i < 13
        ensures Lower(name[i]) == REPORT_PREFIX[i] <==> name[i] == "h1-report-v1:"[i] || name[i] == "H1-REPORT-V1:"[i]
      {}
    }
  }

  /** A validated purchase opens from cash alone, with a quarter of the equity, as
      far as whole eight-decimal units go; a validated sale sells all that is held. */
  ghost predicate SizedAs(p: Proposal)
  {
    && p.limit > 0.0 && p.equity > 0.0 && p.closedHours >= 168 && p.client == H1Id(p.experiment, p.instrument, p.signal, p.side)
    && p.signal == p.open
    && (p.side == Buy ==>
          && MostUnits(p.quantity, p.limit, p.equity * 0.25) && p.quantity * p.limit <= p.cash && p.equity * 0.25 <= p.cash
          && p.units == 0.0 && p.target == 0.25 && p.decision == 1 && p.risk == 0 && !p.halted)
    && (p.side == Sell ==> p.quantity == p.units > 0.0 && p.target == 0.0 && p.decision == 2 && (p.halted <==> p.risk == 1))
  }

  lemma SizedIsMost(equity: real, limit: real)
    requires equity > 0.0 && limit > 0.0
    ensures MostUnits(Sized(equity, limit), limit, equity * 0.25)
  {
    var amount := equity * 0.25;
    var x := amount / limit;
    QuotientAtLeast(amount, limit, 0.0);
    WholeWithin(x);
    hide RoundDownUnits;
    MostOf(RoundDownUnits(x * UNIT_SCALE), x, limit, amount);
  }

  lemma ValidatedIsSized(p: Proposal, observed: int, source: Revision, r: Rules)
    requires ProposalOk(p, observed, source, r)
    ensures SizedAs(p)
  {
    hide MostUnits, Sized, Blank, Accepts;
    if p.side == Buy {
      SizedIsMost(p.equity, p.limit);
    }
  }

  /** In every run each stored proposal is sized so. */
  lemma {:induction false} StoredProposals(steps: seq<Step>, c: ClientId)
    requires Possible(steps) && c in RunOf(steps).proposals
    ensures SizedAs(RunOf(steps).proposals[c].proposal)
  {
    hide RunOf, Possible, ProposalOk, SizedAs, OrdersOk, LineOk, LinksOk, ResolvedOk;
    RunKeeps(steps);
    var v := RunOf(steps);
    assert ProposalFits(c, v.proposals[c], v.intents[c]);
    var row := v.proposals[c];
    ValidatedIsSized(row.proposal, row.proposal.open, row.source, row.rules);
  }

  /** Every stored intent was accepted by the rules stored with it. */
  ghost predicate AllAccepted(intents: Intents)
  {
    forall c <- intents :: IntentOk(intents[c].terms) && Accepts(intents[c].rules, intents[c].terms)
  }

  lemma FlaggedAccepted(v: View, c: ClientId, claimed: bool)
    requires AllAccepted(v.intents)
    ensures c in v.intents ==> AllAccepted(Flagged(v, c, claimed).intents)
  {
    hide IntentOk, Accepts;
  }

  lemma PrepareAccepted(v: View, t: Terms, r: Rules)
    requires AllAccepted(v.intents)
    ensures AllAccepted(Preparing(v, t, r).view.intents)
  {
    hide IntentOk, Accepts, AnyUnresolved;
  }

  lemma HandoffAccepted(v: View, p: Proposal, r: Report, next: Proposal, rules: Rules, before: Option<Snapshot>, after: Option<Snapshot>)
    requires AllAccepted(v.intents)
    ensures AllAccepted(HandingOff(v, p, r, next, rules, before, after).view.intents)
  {
    hide StablePair, Continues, AnyUnresolved, Terminal, IntentOk, Accepts, ProposalOk;
    NextAccepted(next, OfReport(r), rules);
  }

  lemma NextAccepted(next: Proposal, source: Revision, rules: Rules)
    ensures ProposalOk(next, next.open, source, rules) ==> IntentOk(IntentOf(next, source)) && Accepts(rules, IntentOf(next, source))
  {
    hide IntentOk, Accepts;
  }

  lemma ObserveAccepted(v: View, c: ClientId, read: Option<Report>, before: Option<Snapshot>, after: Option<Snapshot>, claim: Option<Guarded>)
    requires AllAccepted(v.intents)
    ensures AllAccepted(Observing(v, c, read, before, after, claim).view.intents)
  {
    hide Observing, Flagged, AllAccepted;
    ObserveShape(v, c, read, before, after, claim);
    FlaggedAccepted(v, c, true);
  }

  lemma InitializeAccepted(v: View)
    requires AllAccepted(v.intents)
    ensures AllAccepted(Initialized(v).view.intents)
  {
    hide IntentOk, Accepts;
  }

  lemma ApplyAccepted(v: View, s: Step)
    requires AllAccepted(v.intents)
    ensures AllAccepted(Apply(v, s).view.intents)
  {
    hide AllAccepted, Accepts, Flagged, Preparing, Recording, Submitting, Reconciling, HandingOff, Observing, Initialized;
    match s
    case Initialize => InitializeAccepted(v);
    case Prepare(t, r) => PrepareAccepted(v, t, r);
    case Record(p, source, r) => RecordFrame(v, p, source, r);
    case Claim(c, source, r) => FlaggedAccepted(v, c, true);
    case Submit(c, source) => SubmitFrame(v, c, source);
    case Adopt(c) => FlaggedAccepted(v, c, false);
    case Reconcile(p, r) => ReconcileFrame(v, p, r);
    case Handoff(p, r, next, rules, before, after) => HandoffAccepted(v, p, r, next, rules, before, after);
    case Observe(c, read, before, after, claim) => ObserveAccepted(v, c, read, before, after, claim);
  }

  lemma {:induction false} RunAccepted(steps: seq<Step>)
    ensures AllAccepted(RunOf(steps).intents)
  {
    hide Apply;
    if steps != [] {
      hide AllAccepted;
      RunAccepted(steps[..|steps| - 1]);
      ApplyAccepted(RunOf(steps[..|steps| - 1]), steps[|steps| - 1]);
    }
  }

  /** In every run, every stored intent is a whole positive number of increments worth at least the minimum. */
  lemma {:induction false} StoredOrders(steps: seq<Step>, c: ClientId)
    requires c in RunOf(steps).intents
    ensures var row := RunOf(steps).intents[c];
      && WholeIncrements(row.terms.quantity, row.rules.baseIncrement) && WholeIncrements(row.terms.limit, row.rules.quoteIncrement)
      && row.terms.quantity >= row.rules.baseMin && row.terms.quantity * row.terms.limit >= row.rules.quoteMin > 0.0
  {
    hide RunOf, IntentOk, Accepts, WholeIncrements;
    RunAccepted(steps);
    AcceptedOrder(RunOf(steps).intents[c].rules, RunOf(steps).intents[c].terms);
  }

  // ----- broker identifiers

  ghost predicate BrokersDiffer(orders: Orders)
  {
    forall c, d :: c in orders && d in orders && c != d ==> orders[c].broker != orders[d].broker
  }

  lemma ReconcileBrokers(v: View, p: Proposal, r: Report)
    requires BrokersDiffer(v.orders)
    ensures BrokersDiffer(Reconciling(v, p, r).view.orders)
  {
    hide Retains, Added, StoredOf, ReportOk;
    ReportClient(p, r);
  }

  /** In every run two orders never share a broker identifier. */
  lemma {:induction false} BrokersUnique(steps: seq<Step>)
    ensures BrokersDiffer(RunOf(steps).orders)
  {
    hide Reconciling;
    if steps != [] {
      var front, last := steps[..|steps| - 1], steps[|steps| - 1];
      hide BrokersDiffer;
      BrokersUnique(front);
      ApplyFrame(RunOf(front), last);
      hide Preparing, Recording, Claiming, Submitting, Adopting, HandingOff, Observing, Initialized;
      match last
      case Reconcile(p, r) => ReconcileBrokers(RunOf(front), p, r);
      case _ =>
    }
  }

  // ----- rearming an intent that already has a report

  /** An intent with an accepted broker report, even a resolved one, can be
      rearmed, claimed and submitted again exactly when the store has no hold and
      the intent is unguarded and has no synthetic order: the adoption looks only
      at the synthetic orders.  Only the first intent of a store is unguarded. */
  lemma ReclaimedExactly(v: View, c: ClientId)
    requires Invariant(v) && c in v.orders
    ensures c in v.intents
    ensures var row := v.intents[c];
      var rearmed := Adopting(v, c);
      var claimed := Claiming(rearmed.view, c, row.terms.source, row.rules);
      && (claimed.answer == Yes <==> v.hold.None? && !row.guarded && c !in v.sources)
      && (claimed.answer == Yes ==> Submitting(claimed.view, c, row.terms.source).answer == Yes)
      && (claimed.answer == Yes ==> c == v.rows[0])
  {
    hide Invariant, Accepts, Adopting, Claiming, Submitting, SourceFits, Flagged;
    HasProposal(v, c);
    ProposalStored(v, c);
    FirstUnguarded(v, c);
    if c in v.sources {
      OrdersClaimed(v, c);
    }
    var row, u := v.intents[c], Adopting(v, c).view;
    RearmedRow(v, c);
    ClaimAnswer(u, c);
    if Claiming(u, c, row.terms.source, row.rules).answer == Yes {
      SubmitAnswer(u, c);
    }
  }

  /** It happens: prepare, claim, report, then adopt, claim and submit. */
  lemma ReclaimReached(p: Proposal, source: Revision, rules: Rules, r: Report)
    requires ProposalOk(p, p.open, source, rules) && ReportOk(p, r) && r.revision == 1
    ensures var c := p.client;
      var reported := [Prepare(IntentOf(p, source), rules), Record(p, source, rules), Claim(c, source, rules), Reconcile(p, r)];
      var run := reported + [Adopt(c)] + [Claim(c, source, rules)] + [Submit(c, source)];
      && Possible(run) && c in RunOf(reported).orders && c !in RunOf(reported).sources && c in RunOf(run).sources
  {
    hide ProposalOk, ReportOk, RunOf, Possible, Invariant, Accepts, IntentOk, Apply, Enabled, Adopting, Claiming, Submitting;
    var c := p.client;
    var reported := [Prepare(IntentOf(p, source), rules), Record(p, source, rules), Claim(c, source, rules), Reconcile(p, r)];
    var v := Reported(p, source, rules, r);
    RunKeeps(reported);
    ReclaimedExactly(v, c);
    var adopted := Adopting(v, c).view;
    var claimed := Claiming(adopted, c, source, rules).view;
    AnyTime(v, c, source, rules);
    AnyTime(adopted, c, source, rules);
    AnyTime(claimed, c, source, rules);
    OneStep(reported, Adopt(c), v, adopted);
    OneStep(reported + [Adopt(c)], Claim(c, source, rules), adopted, claimed);
    OneStep(reported + [Adopt(c)] + [Claim(c, source, rules)], Submit(c, source), claimed, Submitting(claimed, c, source).view);
    SourcesStep(claimed, Submit(c, source), c);
  }

  lemma AnyTime(v: View, c: ClientId, source: Revision, rules: Rules)
    ensures Enabled(v, Adopt(c)) && Enabled(v, Claim(c, source, rules)) && Enabled(v, Submit(c, source))
    ensures Apply(v, Adopt(c)) == Adopting(v, c) && Apply(v, Claim(c, source, rules)) == Claiming(v, c, source, rules)
    ensures Apply(v, Submit(c, source)) == Submitting(v, c, source)
  {
    hide Adopting, Claiming, Submitting;
  }

  /** The store after the first report of a fresh store's first intent. */
  lemma Reported(p: Proposal, source: Revision, rules: Rules, r: Report) returns (v: View)
    requires ProposalOk(p, p.open, source, rules) && ReportOk(p, r) && r.revision == 1
    ensures var steps := [Prepare(IntentOf(p, source), rules), Record(p, source, rules), Claim(p.client, source, rules), Reconcile(p, r)];
      Possible(steps) && RunOf(steps) == v
    ensures v.hold.None? && v.sources == map[] && p.client in v.orders && p.client in v.intents
    ensures v.intents[p.client] == IntentRow(IntentOf(p, source), rules, false, true)
  {
    hide Accepts, IntentOk, RunOf, Possible, AnyUnresolved, ReportOk, ProposalOk;
    var c, t := p.client, IntentOf(p, source);
    var steps := [Prepare(t, rules), Record(p, source, rules), Claim(c, source, rules), Reconcile(p, r)];
    var v1 := Empty.(intents := map[c := IntentRow(t, rules, false, false)], rows := [c]);
    var v2 := v1.(proposals := map[c := ProposalRow(p.open, source, rules, p)]);
    var v3 := v2.(intents := map[c := IntentRow(t, rules, false, true)]);
    NoSteps();
    NextAccepted(p, source, rules);
    FirstPrepared(t, rules);
    assert v2.intents[c := v2.intents[c].(claimed := true)] == v3.intents;
    ReportClient(p, r);
    ProposalClient(p, source, rules);
    FirstReported(v3, p, r);
    v := Reconciling(v3, p, r).view;
    hide Reconciling, Preparing;
    assert [] + [steps[0]] == [steps[0]] && [steps[0]] + [steps[1]] == [steps[0], steps[1]];
    assert [steps[0], steps[1]] + [steps[2]] == [steps[0], steps[1], steps[2]];
    assert [steps[0], steps[1], steps[2]] + [steps[3]] == steps;
    OneStep([], steps[0], Empty, v1);
    OneStep([steps[0]], steps[1], v1, v2);
    OneStep([steps[0], steps[1]], steps[2], v2, v3);
    OneStep([steps[0], steps[1], steps[2]], steps[3], v3, v);
  }

  lemma FirstReported(v: View, p: Proposal, r: Report)
    requires ReportOk(p, r) && r.revision == 1 && r.client == p.client && v.orders == map[] && v.executions == map[] && v.resolutions == map[]
    requires p.client in v.intents && v.intents[p.client].claimed && v.intents[p.client].terms == IntentOf(p, p.source)
    requires p.client in v.proposals && v.proposals[p.client].proposal == p
    ensures Reconciling(v, p, r).answer == HoldReport
    ensures var u := Reconciling(v, p, r).view; u == v.(orders := u.orders, executions := u.executions) && p.client in u.orders
  {
    hide ReportOk, Added;
  }

  lemma HasProposal(v: View, c: ClientId)
    requires Invariant(v) && c in v.orders
    ensures c in v.proposals
  {
    hide LineOk, LinksOk, ProposalsOk, ResolvedOk, SourcesOk, OrderFits;
    assert c in v.orders.Keys;
  }

  /** The adoption leaves a claim exactly where a synthetic order stands. */
  lemma RearmedRow(v: View, c: ClientId)
    requires c in v.intents && (c in v.sources ==> v.intents[c].claimed && SourceFits(c, v.intents[c], v.sources[c]))
    ensures var u := Adopting(v, c).view;
      u.hold == v.hold && u.sources == v.sources && c in u.intents && u.intents[c] == v.intents[c].(claimed := c in v.sources)
  {
    hide SourceFits;
  }

  lemma ClaimAnswer(v: View, c: ClientId)
    requires c in v.intents && Accepts(v.intents[c].rules, v.intents[c].terms)
    ensures var row := v.intents[c]; var o := Claiming(v, c, row.terms.source, row.rules);
      (o.answer == Yes <==> v.hold.None? && !row.claimed && !row.guarded) && (o.answer == Yes ==> o.view == Flagged(v, c, true))
  {
    hide Accepts, Flagged;
  }

  lemma SubmitAnswer(v: View, c: ClientId)
    requires c in v.intents && c !in v.sources
    ensures Submitting(Flagged(v, c, true), c, v.intents[c].terms.source).answer == Yes
  {}

  lemma ProposalStored(v: View, c: ClientId)
    requires Invariant(v) && c in v.proposals
    ensures c in v.intents && Accepts(v.intents[c].rules, v.intents[c].terms)
  {
    hide LineOk, LinksOk, OrdersOk, ResolvedOk, SourcesOk, Accepts;
    NextAccepted(v.proposals[c].proposal, v.proposals[c].source, v.proposals[c].rules);
  }

  lemma OrdersClaimed(v: View, c: ClientId)
    requires Invariant(v) && c in v.sources
    ensures c in v.intents && v.intents[c].claimed && SourceFits(c, v.intents[c], v.sources[c])
  {
    hide LineOk, LinksOk, ProposalsOk, OrdersOk, ResolvedOk;
  }

  /** Every intent after the first of a store is guarded. */
  lemma FirstUnguarded(v: View, c: ClientId)
    requires Invariant(v) && c in v.intents
    ensures v.rows != [] && (!v.intents[c].guarded ==> c == v.rows[0])
  {
    hide ProposalsOk, OrdersOk, ResolvedOk, SourcesOk;
    assert c in v.intents.Keys;
    var j: nat :| j < |v.rows| && v.rows[j] == c;
    if j > 0 {
      assert Linked(v.proposals, v.orders, v.intents, v.rows[j - 1], v.rows[j]);
    }
  }
}
