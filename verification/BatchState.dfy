/** What a batch has reached at any moment: the registry tables, the output
    directory and its manifest, and the consistency that every atomic step of
    a run or a recovery keeps. */
module BatchState {
  import opened Exact
  import opened BatchRecords
  import opened Registry

  datatype Store = Store(t: Tables, files: Files, manifest: Option<OutputDigest>)

  // ----- the inventory

  ghost predicate WellFormed(inventory: seq<Item>)
  {
    && inventory != []
    && (forall i: nat :: i < |inventory| ==>
          && inventory[i].index == i && !inventory[i].status.Ended?
          && (inventory[i].attempt.Some? <==> inventory[i].status == Admitted)
          && (inventory[i].identity.Some? <==> inventory[i].status == Admitted)
          && (inventory[i].attempt.Some? ==> IsToken(inventory[i].attempt.value)))
    && (forall i: nat, j: nat :: i < j < |inventory| && inventory[i].attempt.Some? ==> inventory[i].attempt != inventory[j].attempt)
    && (forall i: nat, j: nat :: i < j < |inventory| && inventory[i].attempt.Some? && inventory[j].attempt.Some? ==>
          !SameVersion(inventory[i].identity.value, inventory[j].identity.value))
  }

  function Sha(item: Item): Option<string> { if item.identity.Some? then Some(item.identity.value.sha) else None }

  predicate Matches(item: Item, r: JobResult)
  {
    r.index == item.index && r.attempt == item.attempt && r.identity == Sha(item)
  }

  /** A result the evaluation loop writes for an item. */
  ghost predicate RunResult(item: Item, r: JobResult)
  {
    && Matches(item, r)
    && if item.status == Admitted then
         r.status in {Ended(Completed), Ended(Failed)} && (r.reason.Some? ==> IsToken(r.reason.value))
       else r.status == item.status
  }

  const OPERATOR_ABORTED: string := "operator_aborted"

  ghost predicate AbortResult(item: Item, r: JobResult)
  {
    Matches(item, r) && r.status == Ended(Aborted) && r.reason == Some(OPERATOR_ABORTED)
  }

  function VerdictOf(r: JobResult): Verdict
    requires r.status.Ended?
  {
    Verdict(r.status.outcome, r.finished, r.reason, Some(r))
  }

  // ----- the summary

  function JobList(jobs: map<int, Record>, n: nat): seq<Record>
  {
    if n == 0 then [] else JobList(jobs, n - 1) + (if n - 1 in jobs then [jobs[n - 1]] else [])
  }

  function CountIf(inventory: seq<Item>, p: Item -> bool): nat
  {
    if inventory == [] then 0
    else CountIf(inventory[..|inventory| - 1], p) + (if p(inventory[|inventory| - 1]) then 1 else 0)
  }

  function SummaryOf(attempts: map<string, Attempt>, verdicts: map<string, Verdict>, jobs: map<int, Record>,
                     id: string, inventory: seq<Item>): Summary
  {
    Summary(id, StatusOf(jobs), JobList(jobs, |inventory|), |inventory|,
            |set i | 0 <= i < |inventory| && inventory[i].key.Some? :: inventory[i].key|,
            CountIf(inventory, (x: Item) => x.attempt.Some?),
            CountIf(inventory, (x: Item) => x.attempt.Some? && x.attempt.value in attempts),
            CountIf(inventory, (x: Item) => x.attempt.Some? && x.attempt.value in attempts && x.attempt.value in verdicts),
            CountIf(inventory, (x: Item) => x.kind == StrategyJob),
            CountIf(inventory, (x: Item) => x.kind == BenchmarkJob))
  }

  predicate AnyStatus(jobs: map<int, Record>, outcome: Outcome)
  {
    exists i <- jobs :: jobs[i].result.status == Ended(outcome)
  }

  function StatusOf(jobs: map<int, Record>): Outcome
  {
    if AnyStatus(jobs, Aborted) then Aborted else if AnyStatus(jobs, Failed) then Failed else Completed
  }

  // ----- one index at a time

  /** Everything the registry and the directory hold about one index. */
  datatype Slot = Slot(attempt: Option<Attempt>, verdict: Option<Verdict>, partial: Option<JobResult>, job: Option<JobResult>,
                       abortResult: Option<JobResult>, abort: Option<JobResult>, record: Option<Record>)

  function Get<K, V>(m: map<K, V>, k: K): Option<V> { if k in m then Some(m[k]) else None }

  function SlotAt(s: Store, id: string, inventory: seq<Item>, i: nat): Slot
    requires i < |inventory|
  {
    var a := inventory[i].attempt;
    Slot(if a.None? then None else Get(s.t.attempts, a.value), if a.None? then None else Get(s.t.verdicts, a.value),
         Get(s.files.partials, i), Get(s.files.jobs, i), Get(s.files.abortResults, i), Get(s.files.aborts, i),
         Get(JobsOf(s.t, id), i))
  }

  /** The finalized artifact of an index, from its own or its abort directory. */
  function Artifact(x: Slot, i: nat): Option<Record>
  {
    if x.abort.Some? then Some(Record(x.abort.value, x.abort.value, AbortDir(i)))
    else if x.job.Some? then Some(Record(x.job.value, x.job.value, JobDir(i)))
    else None
  }

  /** Evaluation only begins once the attempt started; results are written
      after it; an abort never competes with a finalized job; attempts and
      indices are only closed with the artifact of their own index. */
  ghost predicate SlotOk(item: Item, x: Slot)
  {
    && (x.partial.Some? ==>
          && RunResult(item, x.partial.value) && (item.attempt.Some? ==> x.attempt.Some?)
          && (x.attempt.Some? ==> x.attempt.value.started <= x.partial.value.finished))
    && (x.job.Some? ==> x.partial == x.job && x.abortResult.None?)
    && (x.abortResult.Some? ==>
          && AbortResult(item, x.abortResult.value)
          && (x.attempt.Some? ==> x.attempt.value.started <= x.abortResult.value.finished))
    && (x.abort.Some? ==> x.abortResult == x.abort)
    && (x.verdict.Some? ==>
          && x.attempt.Some? && Artifact(x, item.index).Some?
          && Artifact(x, item.index).value.result.status.Ended? && x.verdict.value == VerdictOf(Artifact(x, item.index).value.result))
    && (x.record.Some? ==> Artifact(x, item.index) == x.record && (x.attempt.Some? ==> x.verdict.Some?))
  }

  // ----- consistency of the whole batch

  ghost predicate Bounded(s: Store, id: string, n: nat)
  {
    && (forall i <- s.files.partials :: i < n) && (forall i <- s.files.jobs :: i < n)
    && (forall i <- s.files.abortResults :: i < n) && (forall i <- s.files.aborts :: i < n)
    && (forall i <- JobsOf(s.t, id) :: 0 <= i < n)
  }

  ghost predicate SlotsOk(s: Store, id: string, inventory: seq<Item>)
  {
    forall i: nat :: i < |inventory| ==> SlotOk(inventory[i], SlotAt(s, id, inventory, i))
  }

  ghost predicate AllRecorded(t: Tables, id: string, inventory: seq<Item>)
  {
    forall i: nat :: i < |inventory| ==> i in JobsOf(t, id)
  }

  ghost predicate ClosingOk(s: Store, id: string, inventory: seq<Item>)
  {
    && (s.files.summary.Some? ==>
          && AllRecorded(s.t, id, inventory)
          && s.files.summary.value == SummaryOf(s.t.attempts, s.t.verdicts, JobsOf(s.t, id), id, inventory))
    && (s.manifest.Some? ==> s.files.summary.Some? && s.manifest.value == s.files)
    && (id in s.t.closings ==>
          && s.manifest.Some? && s.t.closings[id].artifact == s.files
          && s.t.closings[id].outcome == StatusOf(JobsOf(s.t, id)))
  }

  ghost predicate Reserved(t: Tables, id: string, inventory: seq<Item>)
  {
    Find(t.batches, id).Some? && Find(t.batches, id).value.inventory == inventory
  }

  ghost predicate Consistent(s: Store, id: string, inventory: seq<Item>)
  {
    && WellFormed(inventory) && Reserved(s.t, id, inventory)
    && Bounded(s, id, |inventory|) && SlotsOk(s, id, inventory) && ClosingOk(s, id, inventory)
  }

  /** Closed, with exactly one outcome per index and no started attempt left open. */
  ghost predicate Finished(s: Store, id: string, inventory: seq<Item>)
  {
    && id in s.t.closings && s.files.summary.Some?
    && (forall i <- JobsOf(s.t, id) :: 0 <= i < |inventory|)
    && (forall i: nat :: i < |inventory| ==>
          && SlotAt(s, id, inventory, i).record.Some?
          && (SlotAt(s, id, inventory, i).attempt.Some? ==> SlotAt(s, id, inventory, i).verdict.Some?))
  }

  // ----- each atomic step keeps it

  /** An index without an outcome keeps the batch from having a summary. */
  lemma NoSummaryYet(s: Store, id: string, inventory: seq<Item>, i: nat)
    requires ClosingOk(s, id, inventory) && i < |inventory| && SlotAt(s, id, inventory, i).record.None?
    ensures s.files.summary == None && s.manifest == None && id !in s.t.closings
  {
    hide SummaryOf, StatusOf;
  }

  /** A step that changes one slot, soundly, before the batch has a summary. */
  lemma SlotStep(s: Store, u: Store, id: string, inventory: seq<Item>, i: nat)
    requires Consistent(s, id, inventory) && i < |inventory|
    requires u.t.batches == s.t.batches && u.t.closings == s.t.closings && u.files.summary == s.files.summary && u.manifest == s.manifest
    requires Bounded(u, id, |inventory|)
    requires SlotOk(inventory[i], SlotAt(u, id, inventory, i))
    requires forall k: nat :: k < |inventory| && k != i ==> SlotAt(u, id, inventory, k) == SlotAt(s, id, inventory, k)
    requires s.files.summary == None
    ensures Consistent(u, id, inventory)
  {
    hide SummaryOf, StatusOf, WellFormed, Bounded, SlotAt, SlotOk;
  }

  lemma StartKeeps(s: Store, id: string, inventory: seq<Item>, i: nat, started: Attempt)
    requires Consistent(s, id, inventory) && i < |inventory| && inventory[i].attempt.Some?
    requires SlotAt(s, id, inventory, i) == Slot(None, None, None, None, None, None, None)
    ensures Consistent(s.(t := s.t.(attempts := s.t.attempts[inventory[i].attempt.value := started])), id, inventory)
  {
    var u := s.(t := s.t.(attempts := s.t.attempts[inventory[i].attempt.value := started]));
    NoSummaryYet(s, id, inventory, i);
    AttemptsApart(inventory, i);
    SlotStep(s, u, id, inventory, i) by { hide WellFormed, ClosingOk; }
  }

  lemma AttemptsApart(inventory: seq<Item>, i: nat)
    requires WellFormed(inventory) && i < |inventory| && inventory[i].attempt.Some?
    ensures forall k: nat :: k < |inventory| && k != i ==> inventory[k].attempt != inventory[i].attempt
  {}

  lemma FilesStep(s: Store, f: Files, id: string, inventory: seq<Item>, i: nat)
    requires Consistent(s, id, inventory) && i < |inventory| && SlotAt(s, id, inventory, i).record.None?
    requires f.summary == s.files.summary && Bounded(s.(files := f), id, |inventory|)
    requires forall k: nat :: k < |inventory| && k != i ==>
      && Get(f.partials, k) == Get(s.files.partials, k) && Get(f.jobs, k) == Get(s.files.jobs, k)
      && Get(f.abortResults, k) == Get(s.files.abortResults, k) && Get(f.aborts, k) == Get(s.files.aborts, k)
    requires SlotOk(inventory[i], SlotAt(s.(files := f), id, inventory, i))
    ensures Consistent(s.(files := f), id, inventory)
  {
    hide WellFormed, ClosingOk, Bounded, SlotOk, Get;
    NoSummaryYet(s, id, inventory, i);
    SlotStep(s, s.(files := f), id, inventory, i);
  }

  lemma ResultKeeps(s: Store, id: string, inventory: seq<Item>, i: nat, r: JobResult)
    requires Consistent(s, id, inventory) && i < |inventory| && RunResult(inventory[i], r)
    requires var x := SlotAt(s, id, inventory, i);
      && x.record.None? && x.verdict.None? && x.partial.None? && x.abortResult.None?
      && (inventory[i].attempt.Some? ==> x.attempt.Some?) && (x.attempt.Some? ==> x.attempt.value.started <= r.finished)
    ensures Consistent(s.(files := s.files.(partials := s.files.partials[i := r])), id, inventory)
  {
    hide WellFormed, ClosingOk, RunResult, AbortResult, SlotsOk;
    assert SlotOk(inventory[i], SlotAt(s, id, inventory, i)) by { SlotHolds(s, id, inventory, i); }
    FilesStep(s, s.files.(partials := s.files.partials[i := r]), id, inventory, i);
  }

  lemma SlotHolds(s: Store, id: string, inventory: seq<Item>, i: nat)
    requires Consistent(s, id, inventory) && i < |inventory|
    ensures SlotOk(inventory[i], SlotAt(s, id, inventory, i)) && inventory[i].index == i && !inventory[i].status.Ended?
    ensures inventory[i].attempt.Some? <==> inventory[i].status == Admitted
    ensures inventory[i].attempt.Some? ==> inventory[i].identity.Some? && IsToken(inventory[i].attempt.value)
  {}

  lemma FinalizeKeeps(s: Store, id: string, inventory: seq<Item>, i: nat)
    requires Consistent(s, id, inventory) && i < |inventory|
    requires var x := SlotAt(s, id, inventory, i); x.record.None? && x.verdict.None? && x.partial.Some? && x.abortResult.None?
    ensures Consistent(s.(files := s.files.(jobs := s.files.jobs[i := s.files.partials[i]])), id, inventory)
  {
    hide WellFormed, ClosingOk, RunResult, AbortResult, SlotsOk;
    SlotHolds(s, id, inventory, i);
    FilesStep(s, s.files.(jobs := s.files.jobs[i := s.files.partials[i]]), id, inventory, i);
  }

  lemma AbortKeeps(s: Store, id: string, inventory: seq<Item>, i: nat, r: JobResult)
    requires Consistent(s, id, inventory) && i < |inventory| && AbortResult(inventory[i], r)
    requires var x := SlotAt(s, id, inventory, i);
      && x.record.None? && x.job.None? && x.abortResult.None? && (x.attempt.Some? ==> x.attempt.value.started <= r.finished)
    ensures Consistent(s.(files := s.files.(abortResults := s.files.abortResults[i := r])), id, inventory)
  {
    hide WellFormed, ClosingOk, RunResult, AbortResult, SlotsOk;
    SlotHolds(s, id, inventory, i);
    FilesStep(s, s.files.(abortResults := s.files.abortResults[i := r]), id, inventory, i);
  }

  lemma AbortFinalizeKeeps(s: Store, id: string, inventory: seq<Item>, i: nat)
    requires Consistent(s, id, inventory) && i < |inventory|
    requires var x := SlotAt(s, id, inventory, i); x.record.None? && x.abort.None? && x.job.None? && x.abortResult.Some?
    ensures Consistent(s.(files := s.files.(aborts := s.files.aborts[i := s.files.abortResults[i]])), id, inventory)
  {
    hide WellFormed, ClosingOk, RunResult, AbortResult, SlotsOk;
    SlotHolds(s, id, inventory, i);
    FilesStep(s, s.files.(aborts := s.files.aborts[i := s.files.abortResults[i]]), id, inventory, i);
  }

  /** The verdict of an attempt is accepted: recorded now, or already there and identical. */
  lemma {:induction false} VerdictKeeps(s: Store, id: string, inventory: seq<Item>, i: nat)
    requires Consistent(s, id, inventory) && i < |inventory|
    requires SlotAt(s, id, inventory, i).attempt.Some? && Artifact(SlotAt(s, id, inventory, i), i).Some?
    ensures var r := Artifact(SlotAt(s, id, inventory, i), i).value.result;
      && r.status.Ended?
      && var c := Finish(inventory[i].attempt.value, VerdictOf(r));
      && Apply(s.t, c).Ok? && After(s.t, c) == s.t.(verdicts := s.t.verdicts[inventory[i].attempt.value := VerdictOf(r)])
      && Consistent(s.(t := After(s.t, c)), id, inventory)
      && SlotAt(s.(t := After(s.t, c)), id, inventory, i) == SlotAt(s, id, inventory, i).(verdict := Some(VerdictOf(r)))
      && forall k: nat :: k < |inventory| && k != i ==> SlotAt(s.(t := After(s.t, c)), id, inventory, k) == SlotAt(s, id, inventory, k)
  {
    hide WellFormed, ClosingOk, SlotsOk, IsToken;
    SlotHolds(s, id, inventory, i);
    var x := SlotAt(s, id, inventory, i);
    var r := Artifact(x, i).value.result;
    AbortReasonIsToken();
    var a := inventory[i].attempt.value;
    var v := s.t.(verdicts := s.t.verdicts[a := VerdictOf(r)]);
    if a in s.t.verdicts {
      assert v.verdicts == s.t.verdicts;
    } else {
      NoSummaryYet(s, id, inventory, i);
      AttemptsApart(inventory, i);
      SlotStep(s, s.(t := v), id, inventory, i);
    }
  }

  lemma AbortReasonIsToken()
    ensures IsToken(OPERATOR_ABORTED)
  {}

  /** The outcome of an index is accepted: recorded now, or already there and identical. */
  lemma {:induction false} RecordKeeps(s: Store, id: string, inventory: seq<Item>, i: nat)
    requires Consistent(s, id, inventory) && i < |inventory|
    requires var x := SlotAt(s, id, inventory, i); Artifact(x, i).Some? && (x.attempt.Some? ==> x.verdict.Some?)
    ensures var job := Artifact(SlotAt(s, id, inventory, i), i).value;
      && var c := FinishJob(id, i, job);
      && Apply(s.t, c).Ok? && After(s.t, c) == s.t.(jobs := After(s.t, c).jobs)
      && Consistent(s.(t := After(s.t, c)), id, inventory)
      && SlotAt(s.(t := After(s.t, c)), id, inventory, i) == SlotAt(s, id, inventory, i).(record := Some(job))
      && forall k: nat :: k < |inventory| && k != i ==> SlotAt(s.(t := After(s.t, c)), id, inventory, k) == SlotAt(s, id, inventory, k)
  {
    hide WellFormed, ClosingOk, SlotsOk, SlotOk, Find;
    SlotHolds(s, id, inventory, i);
    var x := SlotAt(s, id, inventory, i);
    var job := Artifact(x, i).value;
    var v := After(s.t, FinishJob(id, i, job));
    if x.record.None? {
      NoSummaryYet(s, id, inventory, i);
      assert SlotAt(s.(t := v), id, inventory, i) == x.(record := Some(job));
      RecordedOk(inventory[i], x, job);
      SlotStep(s, s.(t := v), id, inventory, i);
    } else {
      RecordIsArtifact(inventory[i], x);
      assert JobsOf(s.t, id)[i := job] == JobsOf(s.t, id);
    }
  }

  lemma RecordIsArtifact(item: Item, x: Slot)
    requires SlotOk(item, x) && x.record.Some?
    ensures Artifact(x, item.index) == x.record
  {}

  lemma RecordedOk(item: Item, x: Slot, job: Record)
    requires SlotOk(item, x) && Artifact(x, item.index) == Some(job) && (x.attempt.Some? ==> x.verdict.Some?)
    ensures SlotOk(item, x.(record := Some(job)))
  {
    hide RunResult, AbortResult;
  }

  // ----- closing

  lemma TimingKeeps(s: Store, id: string, inventory: seq<Item>)
    requires Consistent(s, id, inventory) && s.manifest == None
    ensures Consistent(s.(files := s.files.(timing := true)), id, inventory)
  {
    hide WellFormed, SummaryOf, StatusOf, SlotOk;
    SlotsSame(s, s.(files := s.files.(timing := true)), id, inventory);
  }

  lemma SlotsSame(s: Store, u: Store, id: string, inventory: seq<Item>)
    requires u.t.attempts == s.t.attempts && u.t.verdicts == s.t.verdicts && u.t.jobs == s.t.jobs
    requires u.files == s.files.(timing := u.files.timing, summary := u.files.summary)
    requires SlotsOk(s, id, inventory) && Bounded(s, id, |inventory|)
    ensures SlotsOk(u, id, inventory) && Bounded(u, id, |inventory|)
  {
    hide SlotOk;
    assert JobsOf(u.t, id) == JobsOf(s.t, id);
    forall i: nat | i < |inventory|
      ensures SlotOk(inventory[i], SlotAt(u, id, inventory, i))
    {
      assert SlotAt(u, id, inventory, i) == SlotAt(s, id, inventory, i);
    }
  }

  lemma SummaryKeeps(s: Store, id: string, inventory: seq<Item>)
    requires Consistent(s, id, inventory) && s.manifest == None && AllRecorded(s.t, id, inventory)
    ensures var summary := SummaryOf(s.t.attempts, s.t.verdicts, JobsOf(s.t, id), id, inventory);
      && Consistent(s.(files := s.files.(summary := Some(summary))), id, inventory)
      && (s.files.summary.Some? ==> s.files.summary == Some(summary))
  {
    hide WellFormed, SummaryOf, StatusOf, SlotOk;
    SlotsSame(s, s.(files := s.files.(summary := Some(SummaryOf(s.t.attempts, s.t.verdicts, JobsOf(s.t, id), id, inventory)))), id, inventory);
  }

  /** A summary or manifest that is already there is the one closing would write. */
  lemma SummaryAgrees(s: Store, id: string, inventory: seq<Item>)
    requires Consistent(s, id, inventory)
    ensures s.files.summary.Some? ==>
      s.files.summary.value == SummaryOf(s.t.attempts, s.t.verdicts, JobsOf(s.t, id), id, inventory)
    ensures s.manifest.Some? ==> s.files.summary.Some? && s.manifest.value == s.files
  {
    hide SummaryOf, StatusOf;
  }

  lemma ManifestKeeps(s: Store, id: string, inventory: seq<Item>)
    requires Consistent(s, id, inventory) && s.files.summary.Some?
    ensures Consistent(s.(manifest := Some(s.files)), id, inventory)
  {
    hide WellFormed, SummaryOf, StatusOf, SlotOk;
    SlotsSame(s, s.(manifest := Some(s.files)), id, inventory);
  }

  lemma ClosingKeeps(s: Store, id: string, inventory: seq<Item>, now: int)
    requires Consistent(s, id, inventory) && s.manifest.Some?
    ensures var c := Close(id, Closing(StatusOf(JobsOf(s.t, id)), now, s.files));
      && Apply(s.t, c).Ok?
      && Consistent(s.(t := After(s.t, c)), id, inventory)
      && Finished(s.(t := After(s.t, c)), id, inventory)
      && After(s.t, c) == s.t.(closings := After(s.t, c).closings)
      && After(s.t, c).closings[id].outcome == StatusOf(JobsOf(s.t, id))
  {
    hide WellFormed, SummaryOf, StatusOf, Find;
    var jobs := JobsOf(s.t, id);
    var u := s.(t := After(s.t, Close(id, Closing(StatusOf(jobs), now, s.files))));
    assert |jobs| == |jobs.Keys|;
    Pigeonhole(jobs.Keys, |inventory|);
    assert JobsOf(u.t, id) == jobs;
    SlotsSame(s, u, id, inventory);
    hide SlotOk;
    forall i: nat | i < |inventory|
      ensures SlotAt(u, id, inventory, i).record.Some?
      ensures SlotAt(u, id, inventory, i).attempt.Some? ==> SlotAt(u, id, inventory, i).verdict.Some?
    {
      RecordedClosed(inventory[i], SlotAt(s, id, inventory, i));
      assert SlotAt(u, id, inventory, i) == SlotAt(s, id, inventory, i);
    }
  }

  lemma RecordedClosed(item: Item, x: Slot)
    requires SlotOk(item, x) && x.record.Some?
    ensures x.attempt.Some? ==> x.verdict.Some?
  {}

  /** A closed batch is finished: the count that guards closing leaves no index and no started attempt out. */
  lemma {:induction false} ClosedIsFinished(s: Store, id: string, inventory: seq<Item>)
    requires Consistent(s, id, inventory) && id in s.t.closings
    ensures Finished(s, id, inventory)
    ensures s.files.summary == Some(SummaryOf(s.t.attempts, s.t.verdicts, JobsOf(s.t, id), id, inventory))
  {
    hide WellFormed, SummaryOf, StatusOf, Find;
    forall i: nat | i < |inventory|
      ensures SlotAt(s, id, inventory, i).record.Some?
      ensures SlotAt(s, id, inventory, i).attempt.Some? ==> SlotAt(s, id, inventory, i).verdict.Some?
    {
      RecordedClosed(inventory[i], SlotAt(s, id, inventory, i));
    }
  }

  // ----- two ways to the same end

  /** The same job outcomes, attempt verdicts, status and summary. */
  ghost predicate SameEnd(s: Store, u: Store, id: string, inventory: seq<Item>)
  {
    && JobsOf(s.t, id) == JobsOf(u.t, id)
    && (forall i: nat :: i < |inventory| && inventory[i].attempt.Some? ==>
          && inventory[i].attempt.value in s.t.verdicts && inventory[i].attempt.value in u.t.verdicts
          && s.t.verdicts[inventory[i].attempt.value] == u.t.verdicts[inventory[i].attempt.value])
    && id in s.t.closings && id in u.t.closings && s.t.closings[id].outcome == u.t.closings[id].outcome
    && s.files.summary == u.files.summary
  }

  /** Whatever mixture of run and recovery closed it, a batch whose every job
      directory was finalized ends with outcomes, verdicts, status and summary
      that are determined by the job directories alone. */
  lemma SameFinish(s: Store, u: Store, id: string, inventory: seq<Item>)
    requires Consistent(s, id, inventory) && Finished(s, id, inventory)
    requires Consistent(u, id, inventory) && Finished(u, id, inventory)
    requires s.files.jobs == u.files.jobs && forall i: nat :: i < |inventory| ==> i in s.files.jobs
    ensures SameEnd(s, u, id, inventory)
  {
    hide WellFormed, SummaryOf, StatusOf, Find;
    forall i: nat | i < |inventory|
      ensures i in JobsOf(s.t, id) && i in JobsOf(u.t, id) && JobsOf(s.t, id)[i] == JobsOf(u.t, id)[i]
      ensures inventory[i].attempt.Some? ==>
        && var a := inventory[i].attempt.value;
        && a in s.t.attempts && a in u.t.attempts
        && a in s.t.verdicts && a in u.t.verdicts && s.t.verdicts[a] == u.t.verdicts[a] == VerdictOf(s.files.jobs[i])
    {
      SlotHolds(s, id, inventory, i);
      SlotHolds(u, id, inventory, i);
      FinishedSlot(inventory[i], SlotAt(s, id, inventory, i));
      FinishedSlot(inventory[i], SlotAt(u, id, inventory, i));
    }
    SameMap(JobsOf(s.t, id), JobsOf(u.t, id), |inventory|);
    SameSummary(s, u, id, inventory);
  }

  lemma SameMap(a: map<int, Record>, b: map<int, Record>, n: nat)
    requires (forall k <- a :: 0 <= k < n) && (forall k <- b :: 0 <= k < n)
    requires forall i: nat :: i < n ==> i in a && i in b && a[i] == b[i]
    ensures a == b
  {
    forall k
      ensures k in a <==> k in b
      ensures k in a ==> a[k] == b[k]
    {
      if k in a || k in b {
        var i: nat := k;
        assert i in a && i in b;
      }
    }
  }

  lemma FinishedSlot(item: Item, x: Slot)
    requires SlotOk(item, x) && x.job.Some? && x.record.Some?
    ensures x.record == Some(Record(x.job.value, x.job.value, JobDir(item.index)))
    ensures item.attempt.Some? ==>
      x.attempt.Some? && x.verdict.Some? && x.job.value.status.Ended? && x.verdict.value == VerdictOf(x.job.value)
  {
    hide RunResult;
  }

  lemma SameSummary(s: Store, u: Store, id: string, inventory: seq<Item>)
    requires Consistent(s, id, inventory) && Consistent(u, id, inventory) && s.files.summary.Some? && u.files.summary.Some?
    requires JobsOf(s.t, id) == JobsOf(u.t, id)
    requires forall i: nat :: i < |inventory| && inventory[i].attempt.Some? ==>
      && var a := inventory[i].attempt.value;
      && a in s.t.attempts && a in u.t.attempts && a in s.t.verdicts && a in u.t.verdicts
    ensures s.files.summary == u.files.summary
  {
    hide Consistent, StatusOf, JobList;
    assert s.files.summary.value == SummaryOf(s.t.attempts, s.t.verdicts, JobsOf(s.t, id), id, inventory)
        && u.files.summary.value == SummaryOf(u.t.attempts, u.t.verdicts, JobsOf(u.t, id), id, inventory)
    by { SummaryIs(s, id, inventory); SummaryIs(u, id, inventory); }
    CountAgrees(inventory, (x: Item) => x.attempt.Some? && x.attempt.value in s.t.attempts,
                (x: Item) => x.attempt.Some? && x.attempt.value in u.t.attempts);
    CountAgrees(inventory, (x: Item) => x.attempt.Some? && x.attempt.value in s.t.attempts && x.attempt.value in s.t.verdicts,
                (x: Item) => x.attempt.Some? && x.attempt.value in u.t.attempts && x.attempt.value in u.t.verdicts);
  }

  lemma SummaryIs(s: Store, id: string, inventory: seq<Item>)
    requires Consistent(s, id, inventory) && s.files.summary.Some?
    ensures s.files.summary.value == SummaryOf(s.t.attempts, s.t.verdicts, JobsOf(s.t, id), id, inventory)
  {
    hide SummaryOf;
  }

  lemma {:induction false} CountAgrees(inventory: seq<Item>, p: Item -> bool, q: Item -> bool)
    requires forall i: nat :: i < |inventory| ==> p(inventory[i]) == q(inventory[i])
    ensures CountIf(inventory, p) == CountIf(inventory, q)
  {
    if inventory != [] {
      CountAgrees(inventory[..|inventory| - 1], p, q);
    }
  }
}
