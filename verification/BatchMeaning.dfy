/** What a finished batch says, counted and compared entry by entry: its closing
    outcome, its summary, and the outcome of each index and attempt. */
module BatchMeaning {
  import opened Exact
  import opened BatchRecords
  import opened Registry
  import opened BatchState

  // ----- the status

  /** Aborted if some job ended aborted, else failed if some job failed, else completed. */
  ghost predicate StatusTold(status: Outcome, t: Tables, id: string)
  {
    var jobs := JobsOf(t, id);
    && (status == Aborted <==> exists i <- jobs :: jobs[i].result.status == Ended(Aborted))
    && (status == Failed <==>
          (forall i <- jobs :: jobs[i].result.status != Ended(Aborted)) && exists i <- jobs :: jobs[i].result.status == Ended(Failed))
    && (status == Completed <==> forall i <- jobs :: jobs[i].result.status !in {Ended(Aborted), Ended(Failed)})
  }

  lemma StatusIsTold(t: Tables, id: string)
    ensures StatusTold(StatusOf(JobsOf(t, id)), t, id)
  {}

  // ----- the summary

  /** Every count of a summary is the size of a set of indices, and its jobs are the outcomes in order. */
  ghost predicate SummaryTold(m: Summary, t: Tables, id: string, inventory: seq<Item>)
  {
    var n := |inventory|;
    && m.batch == id && StatusTold(m.status, t, id)
    && |m.jobs| == n && (forall i: nat :: i < n ==> i in JobsOf(t, id) && m.jobs[i] == JobsOf(t, id)[i])
    && m.submitted == n
    && m.distinct == |set i: nat | i < n && inventory[i].key.Some? :: inventory[i].key.value|
    && m.reserved == |set i: nat | i < n && inventory[i].attempt.Some?|
    && m.attempts == |set i: nat | i < n && inventory[i].attempt.Some? && inventory[i].attempt.value in t.attempts|
    && m.terminalAttempts
         == |set i: nat | i < n && inventory[i].attempt.Some? && inventory[i].attempt.value in t.attempts && inventory[i].attempt.value in t.verdicts|
    && m.strategyJobs == |set i: nat | i < n && inventory[i].kind == StrategyJob|
    && m.benchmarkJobs == |set i: nat | i < n && inventory[i].kind == BenchmarkJob|
  }

  function Where(inventory: seq<Item>, p: Item -> bool): set<nat> { set i: nat | i < |inventory| && p(inventory[i]) }

  /** Counting down an inventory counts its indices. */
  lemma {:induction false} CountIsSize(inventory: seq<Item>, p: Item -> bool)
    ensures CountIf(inventory, p) == |Where(inventory, p)|
  {
    if inventory == [] {
      assert Where(inventory, p) == {};
    } else {
      var n := |inventory| - 1;
      var front := inventory[..n];
      CountIsSize(front, p);
      assert Where(inventory, p) == Where(front, p) + if p(inventory[n]) then {n} else {};
      assert n !in Where(front, p);
    }
  }

  lemma {:induction false} JobsInOrder(jobs: map<int, Record>, n: nat)
    requires forall i: nat :: i < n ==> i in jobs
    ensures |JobList(jobs, n)| == n && forall i: nat :: i < n ==> JobList(jobs, n)[i] == jobs[i]
  {
    if n > 0 {
      JobsInOrder(jobs, n - 1);
    }
  }

  lemma KeyCount(inventory: seq<Item>)
    ensures |set i | 0 <= i < |inventory| && inventory[i].key.Some? :: inventory[i].key|
         == |set i: nat | i < |inventory| && inventory[i].key.Some? :: inventory[i].key.value|
  {
    var options := set i | 0 <= i < |inventory| && inventory[i].key.Some? :: inventory[i].key;
    var keys := set i: nat | i < |inventory| && inventory[i].key.Some? :: inventory[i].key.value;
    forall k <- keys
      ensures Some(k) in options
    {}
    forall o <- options
      ensures o.Some? && o.value in keys
    {
      var i :| 0 <= i < |inventory| && inventory[i].key.Some? && inventory[i].key == o;
      assert inventory[i].key.value in keys;
    }
    SizesAgree(options, keys);
  }

  lemma {:induction false} SizesAgree(options: set<Option<string>>, keys: set<string>)
    requires (forall k <- keys :: Some(k) in options) && forall o <- options :: o.Some? && o.value in keys
    ensures |options| == |keys|
  {
    if keys == {} {
      assert options == {};
    } else {
      var k :| k in keys;
      SizesAgree(options - {Some(k)}, keys - {k});
    }
  }

  lemma SummaryIsTold(t: Tables, id: string, inventory: seq<Item>)
    requires forall i: nat :: i < |inventory| ==> i in JobsOf(t, id)
    ensures SummaryTold(SummaryOf(t.attempts, t.verdicts, JobsOf(t, id), id, inventory), t, id, inventory)
  {
    hide StatusOf, StatusTold, CountIf, JobList;
    StatusIsTold(t, id);
    JobsInOrder(JobsOf(t, id), |inventory|);
    KeyCount(inventory);
    var reserved := (x: Item) => x.attempt.Some?;
    var started := (x: Item) => x.attempt.Some? && x.attempt.value in t.attempts;
    var ended := (x: Item) => x.attempt.Some? && x.attempt.value in t.attempts && x.attempt.value in t.verdicts;
    var strategies, benchmarks := (x: Item) => x.kind == StrategyJob, (x: Item) => x.kind == BenchmarkJob;
    CountIsSize(inventory, reserved);
    CountIsSize(inventory, started);
    CountIsSize(inventory, ended);
    CountIsSize(inventory, strategies);
    CountIsSize(inventory, benchmarks);
    assert Where(inventory, reserved) == set i: nat | i < |inventory| && inventory[i].attempt.Some?;
    assert Where(inventory, started) == set i: nat | i < |inventory| && inventory[i].attempt.Some? && inventory[i].attempt.value in t.attempts;
    assert Where(inventory, ended) == set i: nat | i < |inventory| && inventory[i].attempt.Some?
                                        && inventory[i].attempt.value in t.attempts && inventory[i].attempt.value in t.verdicts;
    assert Where(inventory, strategies) == set i: nat | i < |inventory| && inventory[i].kind == StrategyJob;
    assert Where(inventory, benchmarks) == set i: nat | i < |inventory| && inventory[i].kind == BenchmarkJob;
  }

  // ----- one index

  /** The outcome of an index names the index, its attempt and its identity; an
      admitted item completed, failed or was aborted by the operator, any other
      keeps its status or was aborted; and the verdict of a started attempt is
      the same outcome with the same artifact. */
  ghost predicate JobTold(t: Tables, id: string, item: Item, i: nat)
  {
    && i in JobsOf(t, id)
    && var r := JobsOf(t, id)[i].result;
    && r.index == i && r.attempt == item.attempt && r.identity == (if item.identity.Some? then Some(item.identity.value.sha) else None)
    && (r.status == Ended(Aborted) ==> r.reason == Some("operator_aborted"))
    && (r.status != Ended(Aborted) ==> if item.status == Admitted then r.status in {Ended(Completed), Ended(Failed)} else r.status == item.status)
    && (item.attempt.Some? && item.attempt.value in t.attempts ==>
          && item.attempt.value in t.verdicts && r.status.Ended?
          && t.verdicts[item.attempt.value] == Verdict(r.status.outcome, r.finished, r.reason, Some(r)))
  }

  lemma JobIsTold(s: Store, id: string, inventory: seq<Item>, i: nat)
    requires Consistent(s, id, inventory) && i < |inventory| && SlotAt(s, id, inventory, i).record.Some?
    ensures JobTold(s.t, id, inventory[i], i)
  {
    SlotHolds(s, id, inventory, i);
    hide Consistent, IsToken;
  }

  // ----- a finished batch

  ghost predicate BatchTold(s: Store, id: string, inventory: seq<Item>)
  {
    && id in s.t.closings && StatusTold(s.t.closings[id].outcome, s.t, id)
    && s.files.summary.Some? && SummaryTold(s.files.summary.value, s.t, id, inventory)
    && forall i: nat :: i < |inventory| ==> JobTold(s.t, id, inventory[i], i)
  }

  lemma {:induction false} FinishedIsTold(s: Store, id: string, inventory: seq<Item>)
    requires Consistent(s, id, inventory) && Finished(s, id, inventory)
    ensures BatchTold(s, id, inventory)
  {
    hide Consistent, Finished, StatusTold, SummaryTold, JobTold, SlotAt, StatusOf, SummaryOf;
    ClosedAs(s, id, inventory);
    StatusIsTold(s.t, id);
    SummaryIsTold(s.t, id, inventory);
    forall i: nat | i < |inventory|
      ensures JobTold(s.t, id, inventory[i], i)
    {
      JobIsTold(s, id, inventory, i);
    }
  }

  lemma ClosedAs(s: Store, id: string, inventory: seq<Item>)
    requires Consistent(s, id, inventory) && Finished(s, id, inventory)
    ensures id in s.t.closings && s.t.closings[id].outcome == StatusOf(JobsOf(s.t, id))
    ensures s.files.summary == Some(SummaryOf(s.t.attempts, s.t.verdicts, JobsOf(s.t, id), id, inventory))
    ensures forall i: nat :: i < |inventory| ==> i in JobsOf(s.t, id) && SlotAt(s, id, inventory, i).record.Some?
  {
    hide WellFormed, StatusOf, SummaryOf, SlotsOk, Bounded;
  }
}
