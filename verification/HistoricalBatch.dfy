/** A research batch and its recovery.  Every durable effect is one atomic
    step.  Before any of them other processes may take any calls about their own
    batches and attempts, listed in `others`, and the process may die: `fuel`
    counts the steps it still takes. */
module HistoricalBatch {
  import opened Exact
  import opened BatchRecords
  import opened Registry
  import opened BatchState
  import opened BatchMeaning
  import opened ForeignCalls

  datatype Fault = StartRefused(fault: Registry.Fault) | JobIdentityMismatch | MissingTrialStart | RegistryRefused
                 | SummaryMismatch | ArtifactMismatch | JobArtifactMismatch | AdmissionMismatch | ExplicitAbortRequired
  datatype Ending = Died | Raised(fault: Fault) | Blocked(reason: Reason) | Returned(summary: Summary)
  datatype Step = Done | Dead | Stopped(fault: Fault)

  function EndingOf(s: Step): Ending
    requires s != Done
  {
    match s
    case Stopped(fault) => Raised(fault)
    case _ => Died
  }

  // ----- evaluation

  /** What evaluating one item came to, and when. */
  datatype Evaluation = Evaluation(failed: bool, payload: string, finished: int)

  const EVALUATION_FAILED: string := "evaluation_failed"

  function ReasonOf(item: Item): string
  {
    if item.reason.Some? then item.reason.value
    else match item.status
      case Unsupported => "unsupported"
      case Invalid => "invalid"
      case _ => "duplicate"
  }

  function ResultOf(item: Item, e: Evaluation): JobResult
  {
    if item.status == Admitted then
      JobResult(item.index, item.attempt, Sha(item), Ended(if e.failed then Failed else Completed),
                if e.failed then Some(EVALUATION_FAILED) else None, e.payload, e.finished)
    else
      JobResult(item.index, item.attempt, Sha(item), item.status, Some(ReasonOf(item)), e.payload, e.finished)
  }

  function Artifacts(inventory: seq<Item>, evaluations: seq<Evaluation>, k: nat): map<nat, JobResult>
    requires k <= |inventory| == |evaluations|
  {
    if k == 0 then map[] else Artifacts(inventory, evaluations, k - 1)[k - 1 := ResultOf(inventory[k - 1], evaluations[k - 1])]
  }

  lemma {:induction false} ArtifactsFull(inventory: seq<Item>, evaluations: seq<Evaluation>, k: nat)
    requires k <= |inventory| == |evaluations|
    ensures forall i: nat :: i in Artifacts(inventory, evaluations, k) <==> i < k
  {
    if k > 0 {
      ArtifactsFull(inventory, evaluations, k - 1);
    }
  }

  lemma ResultFits(item: Item, e: Evaluation)
    requires !item.status.Ended?
    ensures RunResult(item, ResultOf(item, e))
  {
    assert IsToken(EVALUATION_FAILED);
  }

  const NoFiles := Files(map[], map[], map[], map[], false, None)

  /** A slot nothing was recorded for, and one whose attempt was just started. */
  const EmptySlot := Slot(None, None, None, None, None, None, None)

  function StartedSlot(item: Item, now: int): Slot
  {
    EmptySlot.(attempt := if item.attempt.Some? && item.identity.Some? then Some(Attempt(item.identity.value, Development, now)) else None)
  }

  /** The outcome of an index after an uninterrupted run: what its evaluation came to, or why it was not evaluated. */
  ghost predicate EvaluationTold(t: Tables, id: string, item: Item, e: Evaluation, i: nat)
  {
    && i in JobsOf(t, id)
    && var r := JobsOf(t, id)[i].result;
    && r.payload == e.payload && r.finished == e.finished
    && (item.status == Admitted && e.failed ==> r.status == Ended(Failed) && r.reason == Some("evaluation_failed"))
    && (item.status == Admitted && !e.failed ==> r.status == Ended(Completed) && r.reason == None)
    && (item.status != Admitted ==> r.status == item.status && (item.reason.Some? ==> r.reason == item.reason))
  }

  lemma {:induction false} ArtifactsAre(inventory: seq<Item>, evaluations: seq<Evaluation>, k: nat)
    requires k <= |inventory| == |evaluations|
    ensures forall i: nat :: i < k ==> i in Artifacts(inventory, evaluations, k) && Artifacts(inventory, evaluations, k)[i] == ResultOf(inventory[i], evaluations[i])
  {
    hide ResultOf;
    if k > 0 {
      ArtifactsAre(inventory, evaluations, k - 1);
    }
  }

  lemma ReturnedIsTold(s: Store, id: string, inventory: seq<Item>, evaluations: seq<Evaluation>)
    requires Consistent(s, id, inventory) && Finished(s, id, inventory) && |evaluations| == |inventory|
    requires s.files.jobs == Artifacts(inventory, evaluations, |inventory|)
    ensures forall i: nat :: i < |inventory| ==> EvaluationTold(s.t, id, inventory[i], evaluations[i], i)
  {
    hide Consistent, EvaluationTold, SlotAt, Artifacts;
    ArtifactsAre(inventory, evaluations, |inventory|);
    forall i: nat | i < |inventory|
      ensures EvaluationTold(s.t, id, inventory[i], evaluations[i], i)
    {
      RecordIsJob(s, id, inventory, i);
      ResultIsTold(s.t, id, inventory[i], evaluations[i], i);
    }
  }

  lemma RecordIsJob(s: Store, id: string, inventory: seq<Item>, i: nat)
    requires Consistent(s, id, inventory) && i < |inventory| && SlotAt(s, id, inventory, i).record.Some? && i in s.files.jobs
    ensures i in JobsOf(s.t, id) && JobsOf(s.t, id)[i].result == s.files.jobs[i]
  {
    SlotFacts(s, id, inventory, i);
    hide Consistent;
  }

  lemma ResultIsTold(t: Tables, id: string, item: Item, e: Evaluation, i: nat)
    requires i in JobsOf(t, id) && JobsOf(t, id)[i].result == ResultOf(item, e)
    ensures EvaluationTold(t, id, item, e, i)
  {}

  /** An attempt of somebody else is open on a version this inventory tests. */
  ghost predicate ForeignOpen(t: Tables, inventory: seq<Item>)
  {
    exists a, i: nat :: i < |inventory| && inventory[i].identity.Some? && Open(t, a) && !Own(inventory, a)
      && SameVersion(t.attempts[a].identity, inventory[i].identity.value)
  }

  class Workspace {
    const registry: TrialRegistry
    const id: string
    const inventory: seq<Item>
    var files: Files
    var manifest: Option<OutputDigest>
    var fuel: nat
    var others: seq<seq<Call>>

    ghost function Now(): Store
      reads this, registry
    {
      Store(registry.View(), files, manifest)
    }

    ghost predicate Valid()
      reads this, registry
    {
      registry.Valid() && Consistent(Now(), id, inventory) && Polite(others, id, inventory)
    }

    ghost function SlotOf(i: nat): Slot
      requires i < |inventory|
      reads this, registry
    {
      SlotAt(Now(), id, inventory, i)
    }

    /** An admission written to a new output directory, with a batch identifier never used before. */
    ghost predicate Fresh()
      reads this, registry
    {
      && registry.Valid() && WellFormed(inventory) && files == NoFiles && manifest == None
      && Find(registry.batches, id).None? && Polite(others, id, inventory)
      && forall i: nat :: i < |inventory| && inventory[i].attempt.Some? ==> inventory[i].attempt.value !in registry.attempts
    }

    constructor (registry: TrialRegistry, id: string, inventory: seq<Item>)
      requires registry.Valid() && WellFormed(inventory) && Find(registry.batches, id).None?
      requires forall i: nat :: i < |inventory| && inventory[i].attempt.Some? ==> inventory[i].attempt.value !in registry.attempts
      ensures Fresh() && this.registry == registry && this.id == id && this.inventory == inventory
      ensures !files.timing && files.summary.None?
    {
      this.registry, this.id, this.inventory := registry, id, inventory;
      files, manifest, fuel, others := NoFiles, None, 0, [];
    }

    /** The others take their next calls. */
    method OthersAct()
      requires registry.Valid() && Polite(others, id, inventory)
      modifies registry, this`others
      ensures registry.Valid() && Polite(others, id, inventory)
      ensures Extends(old(registry.View()), registry.View()) && SameRows(old(registry.View()), registry.View(), id, inventory)
    {
      hide Extends, Invariant, SameRows, Foreign, Polite, AllForeign;
      ghost var t := registry.View();
      ExtendsSelf(t);
      SameRowsSelf(t, id, inventory);
      if others == [] {
        return;
      }
      PoliteNext(others, id, inventory);
      var calls := others[0];
      others := others[1..];
      for i := 0 to |calls|
        invariant registry.Valid() && Extends(t, registry.View()) && SameRows(t, registry.View(), id, inventory)
        invariant Polite(others, id, inventory)
      {
        ghost var u := registry.View();
        registry.Take(calls[i]);
        assert Foreign(calls[i], id, inventory) by { ForeignAt(calls, i, id, inventory); }
        ForeignKeeps(u, calls[i], id, inventory);
        ExtendsThrough(t, u, registry.View());
        SameRowsThrough(t, u, registry.View(), id, inventory);
      }
    }

    /** One more durable effect, unless the process dies first. */
    method Lives() returns (ok: bool)
      modifies this`fuel
      ensures ok <==> old(fuel) > 0
      ensures fuel == if ok then old(fuel) - 1 else 0
    {
      ok := fuel > 0;
      if ok {
        fuel := fuel - 1;
      }
    }

    /** The others act, and then one more durable effect, unless the process dies first. */
    method Alive() returns (ok: bool)
      requires Valid()
      modifies registry, this`others, this`fuel
      ensures Valid() && Extends(old(registry.View()), registry.View()) && Undisturbed()
      ensures ok <==> old(fuel) > 0
      ensures fuel == if ok then old(fuel) - 1 else 0
    {
      hide Consistent, Extends, Invariant, SameRows, Polite;
      ghost var s := Now();
      OthersAct();
      ConsistentStays(s, registry.View(), id, inventory);
      SameSlots(s, registry.View(), id, inventory);
      assert SameRows(s.t, registry.View(), id, inventory);
      ok := Lives();
    }

    /** Nothing of this batch changed. */
    twostate predicate Undisturbed()
      reads this, registry
    {
      && SameRows(old(registry.View()), registry.View(), id, inventory)
      && forall k: nat :: k < |inventory| ==> SlotAt(Now(), id, inventory, k) == old(SlotAt(Now(), id, inventory, k))
    }

    /** What one index changed leaves the same. */
    twostate predicate OnlySlot(i: nat)
      requires i < |inventory|
      reads this, registry
    {
      && SlotOf(i).attempt == old(SlotOf(i).attempt)
      && forall k: nat :: k < |inventory| && k != i ==> SlotOf(k) == old(SlotOf(k))
    }

    /** No attempt of the batch was started. */
    twostate predicate SameStarts()
      reads this, registry
    {
      forall k: nat :: k < |inventory| ==> SlotOf(k).attempt == old(SlotOf(k).attempt)
    }

    /** The verdict of a started attempt, from the artifact of its index. */
    method FinishTrial(i: nat, result: JobResult) returns (r: Step)
      requires Valid() && i < |inventory|
      requires var a := Artifact(SlotOf(i), i); a.Some? && a.value.result == result
      modifies registry, this`others, this`fuel
      ensures Valid() && Extends(old(registry.View()), registry.View()) && OnlySlot(i)
      ensures r == Done || (r == Dead && old(fuel) < 1)
      ensures r == Done ==> old(fuel) <= fuel + 1
      ensures r == Done ==> (SlotOf(i).attempt.Some? ==> SlotOf(i).verdict.Some?)
      ensures SlotOf(i) == old(SlotOf(i)).(verdict := SlotOf(i).verdict)
    {
      hide Consistent, Apply, After, Extends, Invariant, SameRows, Polite;
      var item := inventory[i];
      ghost var before := registry.View();
      SlotHolds(Now(), id, inventory, i);
      ExtendsSelf(before);
      if item.attempt.Some? {
        var status := registry.Status(item.attempt.value);
        if status.None? && result.status != Ended(Aborted) {
          return Stopped(MissingTrialStart);
        }
        if status.Some? {
          var alive := Alive();
          if !alive {
            return Dead;
          }
          ghost var t := registry.View();
          assert SlotOf(i) == old(SlotOf(i));
          VerdictKeeps(Now(), id, inventory, i);
          var finished := registry.FinishAttempt(item.attempt.value,
                                                 Verdict(result.status.outcome, result.finished, result.reason, Some(result)));
          ExtendsThrough(before, t, registry.View());
          if finished.Err? {
            return Stopped(RegistryRefused);
          }
        }
      }
      return Done;
    }

    /** Record the verdict and the outcome of one finalized artifact directory. */
    method CompleteJob(i: nat, directory: Directory) returns (r: Step)
      requires Valid() && i < |inventory|
      requires var a := Artifact(SlotOf(i), i); a.Some? && a.value.directory == directory
      modifies registry, this`others, this`fuel
      ensures Valid() && Extends(old(registry.View()), registry.View()) && OnlySlot(i)
      ensures r == Done || (r == Dead && old(fuel) < 2)
      ensures r == Done ==> SlotOf(i).record.Some? && old(fuel) <= fuel + 2
      ensures r == Dead ==> SlotOf(i).record == old(SlotOf(i).record)
    {
      hide Consistent, Apply, After, Extends, Invariant, SlotOk, SameRows, Polite;
      var item := inventory[i];
      var result := if directory.JobDir? then files.jobs[i] else files.aborts[i];
      ghost var before := registry.View();
      ArtifactMatches(Now(), id, inventory, i);
      if !Matches(item, result) {
        return Stopped(JobIdentityMismatch);
      }
      var finished := FinishTrial(i, result);
      if finished != Done {
        return finished;
      }
      ghost var between := registry.View();
      var alive := Alive();
      ExtendsThrough(before, between, registry.View());
      if !alive {
        return Dead;
      }
      RecordKeeps(Now(), id, inventory, i);
      ghost var t := registry.View();
      var recorded := registry.RecordJob(id, i, Record(result, result, directory));
      ExtendsThrough(before, t, registry.View());
      if recorded.Err? {
        return Stopped(RegistryRefused);
      }
      return Done;
    }

    /** Publish the summary unless it is already there. */
    method PublishSummary(summary: Summary) returns (r: Step)
      requires Valid() && AllRecorded(registry.View(), id, inventory)
      requires summary == SummaryOf(registry.attempts, registry.verdicts, JobsOf(registry.View(), id), id, inventory)
      modifies registry, this`others, this`files, this`fuel
      ensures Valid() && Extends(old(registry.View()), registry.View()) && Undisturbed()
      ensures files == old(files).(summary := files.summary)
      ensures r == Done || (r == Dead && old(fuel) < 1)
      ensures r == Done ==> files.summary == Some(summary) && old(fuel) <= fuel + 1
    {
      hide Consistent, Extends, Invariant, SummaryOf, StatusOf, SameRows, Polite;
      ghost var before := registry.View();
      ExtendsSelf(before);
      SameRowsSelf(before, id, inventory);
      SummaryAgrees(Now(), id, inventory);
      if files.summary == None {
        var alive := Alive();
        if !alive {
          return Dead;
        }
        SummarySteady(before, registry.View(), id, inventory);
        SummaryKeeps(Now(), id, inventory);
        files := files.(summary := Some(summary));
      } else if files.summary != Some(summary) {
        return Stopped(SummaryMismatch);
      }
      return Done;
    }

    /** Publish the output manifest unless it is already there. */
    method PublishManifest() returns (r: Step)
      requires Valid() && files.summary.Some?
      modifies registry, this`others, this`manifest, this`fuel
      ensures Valid() && Extends(old(registry.View()), registry.View()) && Undisturbed()
      ensures r == Done || (r == Dead && old(fuel) < 1)
      ensures r == Done ==> manifest.Some? && old(fuel) <= fuel + 1
    {
      hide Consistent, Extends, Invariant, SummaryOf, StatusOf, SameRows, Polite;
      ExtendsSelf(registry.View());
      SameRowsSelf(registry.View(), id, inventory);
      SummaryAgrees(Now(), id, inventory);
      if manifest.Some? {
        if manifest.value != files {
          return Stopped(ArtifactMismatch);
        }
      } else {
        var alive := Alive();
        if !alive {
          return Dead;
        }
        ManifestKeeps(Now(), id, inventory);
        manifest := Some(files);
      }
      return Done;
    }

    /** Publish the summary and then the output manifest, each unless already there. */
    method Publish(summary: Summary) returns (r: Step)
      requires Valid() && AllRecorded(registry.View(), id, inventory)
      requires summary == SummaryOf(registry.attempts, registry.verdicts, JobsOf(registry.View(), id), id, inventory)
      modifies registry, this`others, this`files, this`manifest, this`fuel
      ensures Valid() && Extends(old(registry.View()), registry.View()) && Undisturbed()
      ensures files == old(files).(summary := files.summary)
      ensures r == Done || (r == Dead && old(fuel) < 2)
      ensures r == Done ==> manifest.Some? && files.summary == Some(summary) && old(fuel) <= fuel + 2
    {
      hide Consistent, Extends, Invariant, SummaryOf, StatusOf, SameRows, Polite, SlotAt;
      ghost var before := registry.View();
      r := PublishSummary(summary);
      if r != Done {
        return;
      }
      ghost var between := registry.View();
      r := PublishManifest();
      ExtendsThrough(before, between, registry.View());
      SameRowsThrough(before, between, registry.View(), id, inventory);
    }

    /** Publish the summary of the recorded outcomes and close the batch, each unless already done. */
    method CloseBatch(status: Outcome, now: int) returns (r: (Step, Summary))
      requires Valid() && AllRecorded(registry.View(), id, inventory)
      requires status == StatusOf(JobsOf(registry.View(), id))
      modifies registry, this`others, this`files, this`manifest, this`fuel
      ensures Valid() && Extends(old(registry.View()), registry.View())
      ensures files == old(files).(summary := files.summary)
      ensures SameStarts()
      ensures r.0 == Done || (r.0 == Dead && old(fuel) < 3)
      ensures r.0 == Done ==> Finished(Now(), id, inventory) && files.summary == Some(r.1) && registry.closings[id].outcome == status
      ensures r.0 == Done ==> BatchTold(Now(), id, inventory)
    {
      hide Consistent, Apply, After, Extends, Invariant, SummaryOf, StatusOf, SameRows, Polite, BatchTold;
      ghost var before := registry.View();
      var summary := SummaryOf(registry.attempts, registry.verdicts, if id in registry.jobs then registry.jobs[id] else map[], id, inventory);
      var published := Publish(summary);
      if published != Done {
        return (published, summary);
      }
      ghost var between := registry.View();
      var alive := Alive();
      ExtendsThrough(before, between, registry.View());
      if !alive {
        return (Dead, summary);
      }
      ghost var t := registry.View();
      SameRowsThrough(before, between, t, id, inventory);
      SummarySteady(before, t, id, inventory);
      ClosingKeeps(Now(), id, inventory, now);
      var closed := registry.CloseBatch(id, Closing(status, now, files));
      ExtendsThrough(before, t, registry.View());
      if closed.Err? {
        return (Stopped(RegistryRefused), summary);
      }
      FinishedIsTold(Now(), id, inventory);
      return (Done, summary);
    }

    // ----- recovery

    /** The recovery clock is not behind any start of this batch. */
    ghost predicate ClockAfterStarts(now: int)
      reads this, registry
    {
      forall i: nat :: i < |inventory| && SlotOf(i).attempt.Some? ==> SlotOf(i).attempt.value.started <= now
    }

    /** Some index has neither an outcome nor a finalized job directory. */
    ghost predicate Unexecuted()
      reads this, registry
    {
      exists i: nat :: i < |inventory| && SlotOf(i).record.None? && SlotOf(i).job.None?
    }

    /** Write the result of an abort. */
    method WriteAbort(i: nat, now: int) returns (r: Step)
      requires Valid() && i < |inventory| && ClockAfterStarts(now)
      requires SlotOf(i).record.None? && SlotOf(i).job.None? && SlotOf(i).abortResult.None?
      modifies registry, this`others, this`files, this`fuel
      ensures Valid() && Extends(old(registry.View()), registry.View()) && OnlySlot(i)
      ensures files == old(files).(abortResults := files.abortResults)
      ensures SlotOf(i) == old(SlotOf(i)).(abortResult := SlotOf(i).abortResult)
      ensures r == Done || (r == Dead && old(fuel) < 1)
      ensures r == Done ==> SlotOf(i).abortResult.Some? && old(fuel) <= fuel + 1
    {
      hide Consistent, Extends, Invariant, SameRows, Polite;
      var item := inventory[i];
      var result := JobResult(item.index, item.attempt, Sha(item), Ended(Aborted), Some(OPERATOR_ABORTED), "", now);
      var alive := Alive();
      if !alive {
        return Dead;
      }
      assert SlotOf(i) == old(SlotOf(i));
      AbortKeeps(Now(), id, inventory, i, result);
      files := files.(abortResults := files.abortResults[i := result]);
      return Done;
    }

    /** Finalize the directory of an abort. */
    method FinalizeAbort(i: nat) returns (r: Step)
      requires Valid() && i < |inventory|
      requires SlotOf(i).record.None? && SlotOf(i).job.None? && SlotOf(i).abort.None? && SlotOf(i).abortResult.Some?
      modifies registry, this`others, this`files, this`fuel
      ensures Valid() && Extends(old(registry.View()), registry.View()) && OnlySlot(i)
      ensures files == old(files).(aborts := files.aborts)
      ensures SlotOf(i) == old(SlotOf(i)).(abort := SlotOf(i).abort)
      ensures r == Done || (r == Dead && old(fuel) < 1)
      ensures r == Done ==> SlotOf(i).abort.Some? && old(fuel) <= fuel + 1
    {
      hide Consistent, Extends, Invariant, SameRows, Polite;
      var alive := Alive();
      if !alive {
        return Dead;
      }
      assert SlotOf(i) == old(SlotOf(i));
      AbortFinalizeKeeps(Now(), id, inventory, i);
      files := files.(aborts := files.aborts[i := files.abortResults[i]]);
      return Done;
    }

    /** Record an abort for an index that was never finalized. */
    method AbortJob(i: nat, now: int) returns (r: Step)
      requires Valid() && i < |inventory| && ClockAfterStarts(now)
      requires SlotOf(i).record.None? && SlotOf(i).job.None? && SlotOf(i).abort.None?
      modifies registry, this`others, this`files, this`fuel
      ensures Valid() && Extends(old(registry.View()), registry.View()) && OnlySlot(i)
      ensures files.jobs == old(files.jobs) && files.partials == old(files.partials)
      ensures SlotOf(i) == old(SlotOf(i)).(abortResult := SlotOf(i).abortResult, abort := SlotOf(i).abort)
      ensures r == Done || (r == Dead && old(fuel) < 2)
      ensures r == Done ==> SlotOf(i).abort.Some? && old(fuel) <= fuel + 2
    {
      hide Consistent, Extends, Invariant, Polite;
      ghost var before := registry.View();
      ExtendsSelf(before);
      if i !in files.abortResults {
        var written := WriteAbort(i, now);
        if written != Done {
          return written;
        }
      }
      ghost var between := registry.View();
      r := FinalizeAbort(i);
      ExtendsThrough(before, between, registry.View());
    }

    /** Complete one index: check its recorded artifact, or record the artifact that exists, or abort it. */
    method RecoverJob(i: nat, now: int) returns (r: Step)
      requires Valid() && i < |inventory| && ClockAfterStarts(now)
      modifies registry, this`others, this`files, this`fuel
      ensures Valid() && Extends(old(registry.View()), registry.View()) && OnlySlot(i)
      ensures files.jobs == old(files.jobs) && files.partials == old(files.partials)
      ensures old(SlotOf(i).record.Some? || SlotOf(i).job.Some?) ==> files == old(files)
      ensures r == Done || (r == Dead && old(fuel) < 4)
      ensures r == Done ==> SlotOf(i).record.Some? && old(fuel) <= fuel + 4
      ensures ClockAfterStarts(now)
    {
      hide Consistent, Extends, Invariant, SlotOk, Polite;
      ghost var before := registry.View();
      ExtendsSelf(before);
      SlotFacts(Now(), id, inventory, i);
      var jobs := if id in registry.jobs then registry.jobs[id] else map[];
      if i in jobs {
        var directory := jobs[i].directory;
        var content := match directory
          case JobDir(k) => (if k in files.jobs then Some(files.jobs[k]) else None)
          case AbortDir(k) => (if k in files.aborts then Some(files.aborts[k]) else None);
        if content != Some(jobs[i].artifact) {
          return Stopped(JobArtifactMismatch);
        }
        return Done;
      }
      if i in files.aborts {
        r := CompleteJob(i, AbortDir(i));
      } else if i in files.jobs {
        r := CompleteJob(i, JobDir(i));
      } else {
        var aborted := AbortJob(i, now);
        if aborted != Done {
          return aborted;
        }
        ghost var between := registry.View();
        r := CompleteJob(i, AbortDir(i));
        ExtendsThrough(before, between, registry.View());
      }
    }

    /** Complete every index in order. */
    method RecoverJobs(abort: bool, now: int) returns (r: Step)
      requires Valid() && ClockAfterStarts(now) && (abort || !Unexecuted())
      modifies registry, this`others, this`files, this`fuel
      ensures Valid() && Extends(old(registry.View()), registry.View()) && ClockAfterStarts(now)
      ensures files.jobs == old(files.jobs) && files.partials == old(files.partials) && SameStarts()
      ensures !abort ==> files == old(files)
      ensures r == Done || (r == Dead && old(fuel) < 4 * |inventory|)
      ensures r == Done ==> AllRecorded(registry.View(), id, inventory) && old(fuel) <= fuel + 4 * |inventory|
    {
      hide Consistent, Extends, Invariant, SlotAt;
      ExtendsSelf(registry.View());
      for i := 0 to |inventory|
        invariant Valid() && Extends(old(registry.View()), registry.View()) && ClockAfterStarts(now)
        invariant SameStarts() && files.jobs == old(files.jobs) && files.partials == old(files.partials)
        invariant forall k: nat :: k < i ==> SlotOf(k).record.Some?
        invariant forall k: nat :: i <= k < |inventory| ==> SlotOf(k) == old(SlotOf(k))
        invariant old(fuel) <= fuel + 4 * i
        invariant !abort ==> files == old(files)
      {
        ghost var t := registry.View();
        var step := RecoverJob(i, now);
        ExtendsThrough(old(registry.View()), t, registry.View());
        if step != Done {
          return step;
        }
      }
      forall k: nat | k < |inventory|
        ensures k in JobsOf(registry.View(), id)
      {
        assert SlotOf(k).record.Some?;
        RecordedSlot(Now(), id, inventory, k);
      }
      return Done;
    }

    /** What a recovery is given: the effects it still takes and the calls of the others. */
    method Schedule(fuel: nat, calls: seq<seq<Call>>)
      requires Valid() && Polite(calls, id, inventory)
      modifies this`fuel, this`others
      ensures Valid() && Now() == old(Now()) && this.fuel == fuel && others == calls
      ensures forall now :: old(ClockAfterStarts(now)) ==> ClockAfterStarts(now)
    {
      hide Consistent, Invariant, Polite, SlotAt;
      this.fuel, others := fuel, calls;
      assert registry.View() == old(registry.View()) && Now() == old(Now());
      assert SameStarts();
      forall now | old(ClockAfterStarts(now))
        ensures ClockAfterStarts(now)
      {
        ClockKept(now);
      }
    }

    lemma ClockLater(now: int, later: int)
      requires ClockAfterStarts(now) && now <= later
      ensures ClockAfterStarts(later)
    {
      hide SlotOf;
    }

    twostate lemma ClockKept(now: int)
      requires old(ClockAfterStarts(now)) && SameStarts()
      ensures ClockAfterStarts(now)
    {
      hide SlotOf;
    }

    lemma NothingMissing()
      requires forall i: nat :: i < |inventory| ==> i in files.jobs
      ensures !Unexecuted()
    {
      forall i: nat | i < |inventory|
        ensures SlotOf(i).job.Some?
      {}
    }

    method AnyMissing(jobs: map<int, Record>) returns (missing: bool)
      requires jobs == JobsOf(registry.View(), id)
      ensures missing <==> Unexecuted()
    {
      missing := exists i: nat :: i < |inventory| && i !in jobs && i !in files.jobs;
      if missing {
        ghost var i: nat :| i < |inventory| && i !in jobs && i !in files.jobs;
        assert SlotOf(i).record.None? && SlotOf(i).job.None?;
      }
      forall i: nat | i < |inventory| && SlotOf(i).record.None? && SlotOf(i).job.None?
        ensures i !in jobs && i !in files.jobs
      {}
    }

    /** Complete verified artifact metadata or explicitly abort. */
    method Recover(abort: bool, now: int) returns (r: Ending)
      requires Valid() && ClockAfterStarts(now)
      modifies registry, this`others, this`files, this`manifest, this`fuel
      ensures Valid() && Extends(old(registry.View()), registry.View()) && ClockAfterStarts(now)
      ensures files.jobs == old(files.jobs) && files.partials == old(files.partials) && SameStarts()
      ensures r.Raised? <==> !abort && old(Unexecuted())
      ensures r.Raised? ==> r.fault == ExplicitAbortRequired && Now() == old(Now())
      ensures r.Returned? ==> Finished(Now(), id, inventory) && BatchTold(Now(), id, inventory) && files.summary == Some(r.summary)
      ensures !r.Blocked?
      ensures old(fuel) >= 4 * |inventory| + 3 ==> !r.Died?
      ensures !abort ==> files.aborts == old(files.aborts) && files.abortResults == old(files.abortResults)
    {
      hide Consistent, Extends, Invariant, SummaryOf, BatchTold;
      ExtendsSelf(registry.View());
      var state := registry.GetBatch(id);
      ReservedHolds(Now(), id, inventory);
      if state.None? || state.value.0.inventory != inventory {
        return Raised(AdmissionMismatch);
      }
      var (batch, jobs, terminal, _) := state.value;
      if terminal.Some? {
        ClosedIsFinished(Now(), id, inventory);
        FinishedIsTold(Now(), id, inventory);
        ClosedHolds(Now(), id, inventory);
        if files != terminal.value.artifact || files.summary.None? {
          return Raised(ArtifactMismatch);
        }
        return Returned(files.summary.value);
      }
      var missing := AnyMissing(jobs);
      if !abort && missing {
        return Raised(ExplicitAbortRequired);
      }
      var step := RecoverJobs(abort, now);
      if step != Done {
        return EndingOf(step);
      }
      ghost var t := registry.View();
      var ended := if id in registry.jobs then registry.jobs[id] else map[];
      var status := if exists i <- ended :: ended[i].result.status == Ended(Aborted) then Aborted
                    else if exists i <- ended :: ended[i].result.status == Ended(Failed) then Failed else Completed;
      hide StatusOf;
      var closed := CloseBatch(status, now);
      ExtendsThrough(old(registry.View()), t, registry.View());
      if closed.0 != Done {
        return EndingOf(closed.0);
      }
      return Returned(closed.1);
    }

    // ----- the run

    /** Start the attempt of one admitted item. */
    method StartOne(i: nat, now: int) returns (r: Step)
      requires Valid() && i < |inventory|
      requires forall k: nat :: k < |inventory| ==> SlotOf(k) == if k < i then StartedSlot(inventory[k], now) else EmptySlot
      modifies registry, this`others, this`fuel
      ensures Valid() && Extends(old(registry.View()), registry.View())
      ensures forall k: nat :: k < |inventory| && (k != i || r != Done) ==> SlotOf(k) == old(SlotOf(k))
      ensures r == Dead ==> old(fuel) == 0
      ensures r == Done ==> old(fuel) <= fuel + 1 && SlotOf(i) == StartedSlot(inventory[i], now)
      ensures r.Stopped? ==> r.fault == StartRefused(AttemptUnfinished) && ForeignOpen(registry.View(), inventory)
    {
      hide Consistent, Extends, Invariant, VersionOpen, IsToken, ForeignOpen, SameRows, Polite;
      ghost var before := registry.View();
      ExtendsSelf(before);
      var item := inventory[i];
      SlotHolds(Now(), id, inventory, i);
      if item.status != Admitted {
        return Done;
      }
      var terms := Attempt(item.identity.value, Development, now);
      var alive := Alive();
      if !alive {
        return Dead;
      }
      ghost var s := Now();
      StartAccepted(s, id, inventory, i, terms);
      var started := registry.StartAttempt(item.attempt.value, terms);
      ExtendsThrough(before, s.t, registry.View());
      if started.Err? {
        OpenIsForeign(s, id, inventory, i, now);
        return Stopped(StartRefused(started.fault));
      }
      return Done;
    }

    /** Start every admitted attempt before any work. */
    method StartAll(now: int) returns (r: Step)
      requires Valid() && files == NoFiles && forall i: nat :: i < |inventory| ==> SlotOf(i) == EmptySlot
      modifies registry, this`others, this`fuel
      ensures Valid() && Extends(old(registry.View()), registry.View()) && ClockAfterStarts(now)
      ensures r == Dead ==> old(fuel) < |inventory|
      ensures r == Done ==> old(fuel) <= fuel + |inventory|
      ensures r == Done ==> forall i: nat :: i < |inventory| ==> SlotOf(i) == StartedSlot(inventory[i], now)
      ensures r.Stopped? ==> r.fault == StartRefused(AttemptUnfinished) && ForeignOpen(registry.View(), inventory)
    {
      hide Consistent, Extends, Invariant, ForeignOpen, SlotAt, StartedSlot, Polite;
      ghost var t0 := registry.View();
      ExtendsSelf(t0);
      for i := 0 to |inventory|
        invariant Valid() && Extends(t0, registry.View())
        invariant forall k: nat :: k < |inventory| ==> SlotOf(k) == if k < i then StartedSlot(inventory[k], now) else EmptySlot
        invariant old(fuel) <= fuel + i
      {
        ghost var t := registry.View();
        var step := StartOne(i, now);
        ExtendsThrough(t0, t, registry.View());
        if step != Done {
          BegunClock(i, now);
          return step;
        }
      }
      BegunClock(|inventory|, now);
      return Done;
    }

    lemma BegunClock(i: nat, now: int)
      requires forall k: nat :: k < |inventory| ==> SlotOf(k) == if k < i then StartedSlot(inventory[k], now) else EmptySlot
      ensures ClockAfterStarts(now)
    {}

    /** Write the result of one item. */
    method WriteResult(i: nat, result: JobResult, now: int) returns (r: Step)
      requires Valid() && i < |inventory| && SlotOf(i) == StartedSlot(inventory[i], now)
      requires RunResult(inventory[i], result) && now <= result.finished
      modifies registry, this`others, this`files, this`fuel
      ensures Valid() && Extends(old(registry.View()), registry.View()) && OnlySlot(i)
      ensures files == old(files).(partials := files.partials)
      ensures r == Done ==> SlotOf(i) == old(SlotOf(i)).(partial := Some(result)) && old(fuel) <= fuel + 1
      ensures r != Done ==> r == Dead && old(fuel) < 1
    {
      hide Consistent, Extends, Invariant, RunResult, AbortResult, SameRows, Polite;
      SlotHolds(Now(), id, inventory, i);
      var alive := Alive();
      if !alive {
        return Dead;
      }
      assert SlotOf(i) == old(SlotOf(i));
      ResultKeeps(Now(), id, inventory, i, result);
      files := files.(partials := files.partials[i := result]);
      return Done;
    }

    /** Finalize the directory of one item. */
    method FinalizeResult(i: nat) returns (r: Step)
      requires Valid() && i < |inventory|
      requires SlotOf(i) == EmptySlot.(attempt := SlotOf(i).attempt, partial := SlotOf(i).partial) && SlotOf(i).partial.Some?
      modifies registry, this`others, this`files, this`fuel
      ensures Valid() && Extends(old(registry.View()), registry.View()) && OnlySlot(i)
      ensures files == old(files).(jobs := files.jobs)
      ensures r == Done ==>
        && files.jobs == old(files.jobs)[i := old(SlotOf(i).partial.value)] && old(fuel) <= fuel + 1
        && SlotOf(i) == old(SlotOf(i)).(job := old(SlotOf(i).partial))
      ensures r != Done ==> files == old(files) && r == Dead && old(fuel) < 1
    {
      hide Consistent, Extends, Invariant, SameRows, Polite;
      var alive := Alive();
      if !alive {
        return Dead;
      }
      assert SlotOf(i) == old(SlotOf(i));
      FinalizeKeeps(Now(), id, inventory, i);
      files := files.(jobs := files.jobs[i := files.partials[i]]);
      return Done;
    }

    /** Write the result of one item and finalize its directory. */
    method PublishJob(i: nat, result: JobResult, now: int) returns (r: Step)
      requires Valid() && i < |inventory| && SlotOf(i) == StartedSlot(inventory[i], now)
      requires RunResult(inventory[i], result) && now <= result.finished
      modifies registry, this`others, this`files, this`fuel
      ensures Valid() && Extends(old(registry.View()), registry.View()) && OnlySlot(i)
      ensures files == old(files).(partials := files.partials, jobs := files.jobs)
      ensures r == Done ==> files.jobs == old(files.jobs)[i := result] && old(fuel) <= fuel + 2
      ensures r != Done ==> files.jobs == old(files.jobs) && r == Dead && old(fuel) < 2
      ensures r == Done ==> Artifact(SlotOf(i), i) == Some(Record(result, result, JobDir(i)))
    {
      hide Consistent, Extends, Invariant, RunResult, SameRows, Polite, SlotAt;
      ghost var before := registry.View();
      r := WriteResult(i, result, now);
      if r != Done {
        return;
      }
      ghost var between := registry.View();
      r := FinalizeResult(i);
      ExtendsThrough(before, between, registry.View());
    }

    /** Evaluate one item, finalize its directory, and record its verdict and outcome. */
    method RunJob(i: nat, e: Evaluation, now: int) returns (r: Step)
      requires Valid() && i < |inventory| && SlotOf(i) == StartedSlot(inventory[i], now) && now <= e.finished
      modifies registry, this`others, this`files, this`fuel
      ensures Valid() && Extends(old(registry.View()), registry.View()) && OnlySlot(i)
      ensures files.abortResults == old(files.abortResults) && files.aborts == old(files.aborts) && files.timing == old(files.timing)
      ensures files.jobs == old(files.jobs) || files.jobs == old(files.jobs)[i := ResultOf(inventory[i], e)]
      ensures r == Done || (r == Dead && old(fuel) < 4)
      ensures r == Done ==> SlotOf(i).record.Some? && old(fuel) <= fuel + 4
      ensures r == Done ==> files.jobs == old(files.jobs)[i := ResultOf(inventory[i], e)]
    {
      hide Consistent, Extends, Invariant, RunResult, SlotAt, StartedSlot, Artifact, Polite;
      ghost var before := registry.View();
      NotEnded(Now(), id, inventory, i);
      ResultFits(inventory[i], e);
      FinishesThen(inventory[i], e);
      var published := PublishJob(i, ResultOf(inventory[i], e), now);
      if published != Done {
        return published;
      }
      ghost var between := registry.View();
      r := CompleteJob(i, JobDir(i));
      ExtendsThrough(before, between, registry.View());
    }

    method RunJobs(evaluations: seq<Evaluation>, now: int) returns (r: Step)
      requires Valid() && |evaluations| == |inventory|
      requires forall i: nat :: i < |inventory| ==> SlotOf(i) == StartedSlot(inventory[i], now) && now <= evaluations[i].finished
      requires files.jobs == map[] && files.aborts == map[] && files.abortResults == map[] && ClockAfterStarts(now)
      modifies registry, this`others, this`files, this`fuel
      ensures Valid() && Extends(old(registry.View()), registry.View()) && ClockAfterStarts(now)
      ensures files.aborts == map[] && files.abortResults == map[]
      ensures exists k: nat :: k <= |inventory| && files.jobs == Artifacts(inventory, evaluations, k)
      ensures r == Done || (r == Dead && old(fuel) < 4 * |inventory|)
      ensures r == Done ==> AllRecorded(registry.View(), id, inventory) && old(fuel) <= fuel + 4 * |inventory|
      ensures r == Done ==> files.jobs == Artifacts(inventory, evaluations, |inventory|)
    {
      hide Consistent, Extends, Invariant, SlotAt;
      ExtendsSelf(registry.View());
      for i := 0 to |inventory|
        invariant Valid() && Extends(old(registry.View()), registry.View())
        invariant files.aborts == map[] && files.abortResults == map[]
        invariant files.jobs == Artifacts(inventory, evaluations, i)
        invariant forall k: nat :: k < i ==> SlotOf(k).record.Some?
        invariant forall k: nat :: i <= k < |inventory| ==> SlotOf(k) == old(SlotOf(k))
        invariant ClockAfterStarts(now)
        invariant old(fuel) <= fuel + 4 * i
      {
        ghost var t := registry.View();
        var step := RunJob(i, evaluations[i], now);
        ExtendsThrough(old(registry.View()), t, registry.View());
        if step != Done {
          assert files.jobs == Artifacts(inventory, evaluations, i) || files.jobs == Artifacts(inventory, evaluations, i + 1);
          return step;
        }
      }
      forall k: nat | k < |inventory|
        ensures k in JobsOf(registry.View(), id)
      {
        assert SlotOf(k).record.Some?;
        RecordedSlot(Now(), id, inventory, k);
      }
      return Done;
    }

    /** Write the timing file. */
    method WriteTiming() returns (r: Step)
      requires Valid() && manifest == None
      modifies registry, this`others, this`files, this`fuel
      ensures Valid() && Extends(old(registry.View()), registry.View()) && Undisturbed()
      ensures files == old(files).(timing := files.timing)
      ensures r == Done || (r == Dead && old(fuel) < 1)
      ensures r == Done ==> old(fuel) <= fuel + 1
    {
      hide Consistent, Extends, Invariant, SummaryOf, StatusOf, SameRows, Polite;
      var alive := Alive();
      if !alive {
        return Dead;
      }
      TimingKeeps(Now(), id, inventory);
      files := files.(timing := true);
      return Done;
    }

    /** The timing file, the status from the outcomes, and the closing. */
    method Conclude(now: int) returns (r: Ending)
      requires Valid() && AllRecorded(registry.View(), id, inventory) && files.aborts == map[] && manifest == None
      modifies registry, this`others, this`files, this`manifest, this`fuel
      ensures Valid() && Extends(old(registry.View()), registry.View()) && SameStarts()
      ensures files.jobs == old(files.jobs) && files.aborts == map[] && files.abortResults == old(files.abortResults)
      ensures r.Returned? || (r == Died && old(fuel) < 4)
      ensures r.Returned? ==> Finished(Now(), id, inventory) && BatchTold(Now(), id, inventory) && files.summary == Some(r.summary)
    {
      hide Consistent, Extends, Invariant, SummaryOf, Finished, BatchTold, Polite, SlotAt;
      ghost var before := registry.View();
      var timed := WriteTiming();
      if timed != Done {
        return Died;
      }
      ghost var between := registry.View();
      var jobs := if id in registry.jobs then registry.jobs[id] else map[];
      NoAborts(Now(), id, inventory);
      var status := if exists i <- jobs :: jobs[i].result.status == Ended(Failed) then Failed else Completed;
      hide AnyStatus, StatusOf;
      var closed := CloseBatch(status, now);
      ExtendsThrough(before, between, registry.View());
      if closed.0 != Done {
        return EndingOf(closed.0);
      }
      return Returned(closed.1);
    }

    /** Reserve the inventory; `None` means admitted. */
    method Admit(b: Batch) returns (r: Option<Ending>)
      requires Fresh() && b.id == id && b.inventory == inventory
      modifies registry, this`others, this`fuel
      ensures registry.Valid() && Extends(old(registry.View()), registry.View())
      ensures r.None? ==> Valid() && old(fuel) <= fuel + 1 && forall i: nat :: i < |inventory| ==> SlotOf(i) == EmptySlot
      ensures r.Some? ==> Find(registry.batches, id).None?
      ensures r.Some? ==> !r.value.Returned? && (r.value.Raised? ==> r.value.fault == RegistryRefused)
      ensures r == Some(Died) ==> old(fuel) == 0
    {
      hide Consistent, Extends, Invariant, Rejection, IsToken, Polite;
      ghost var before := registry.View();
      OthersAct();
      ghost var t := registry.View();
      StillFresh(before, t, id, inventory);
      hide SameRows;
      var alive := Lives();
      if !alive {
        return Some(Died);
      }
      var reserved := registry.ReserveBatch(b);
      ExtendsThrough(before, t, registry.View());
      if reserved.Err? {
        return Some(Raised(RegistryRefused));
      }
      if reserved.value.Some? {
        return Some(Blocked(reserved.value.value));
      }
      ReservedStore(t, b, id, inventory);
      return None;
    }

    /** Everything after the reservation. */
    method Perform(evaluations: seq<Evaluation>, now: int) returns (r: Ending)
      requires Valid() && |evaluations| == |inventory| && files == NoFiles && manifest == None
      requires forall i: nat :: i < |inventory| ==> SlotOf(i) == EmptySlot && now <= evaluations[i].finished
      modifies registry, this`others, this`files, this`manifest, this`fuel
      ensures Valid() && ClockAfterStarts(now) && Extends(old(registry.View()), registry.View())
      ensures exists k: nat :: k <= |inventory| && files.jobs == Artifacts(inventory, evaluations, k)
      ensures files.aborts == map[] && files.abortResults == map[]
      ensures !r.Blocked?
      ensures r.Raised? ==> r.fault == StartRefused(AttemptUnfinished) && ForeignOpen(registry.View(), inventory)
      ensures r.Returned? ==>
        && Finished(Now(), id, inventory) && BatchTold(Now(), id, inventory) && files.summary == Some(r.summary)
        && files.jobs == Artifacts(inventory, evaluations, |inventory|)
      ensures old(fuel) >= 5 * |inventory| + 4 ==> !r.Died?
    {
      hide Consistent, Extends, Invariant, ForeignOpen, Finished, BatchTold, SlotAt, StartedSlot;
      ghost var t1 := registry.View();
      assert files.jobs == Artifacts(inventory, evaluations, 0);
      var started := StartAll(now);
      if started != Done {
        return EndingOf(started);
      }
      ghost var t2 := registry.View();
      NoManifest(evaluations);
      var ran := RunJobs(evaluations, now);
      ExtendsThrough(t1, t2, registry.View());
      if ran != Done {
        return EndingOf(ran);
      }
      ghost var t3 := registry.View();
      r := Conclude(now);
      ExtendsThrough(t1, t3, registry.View());
    }

    lemma NoManifest(evaluations: seq<Evaluation>)
      requires |evaluations| == |inventory|
      ensures Artifacts(inventory, evaluations, 0) == map[]
    {}

    /** The whole run; it may die anywhere, and once reserved it leaves a batch that recovery accepts. */
    method Run(b: Batch, evaluations: seq<Evaluation>, now: int) returns (r: Ending)
      requires Fresh() && b.id == id && b.inventory == inventory && |evaluations| == |inventory|
      requires forall i: nat :: i < |inventory| ==> now <= evaluations[i].finished
      modifies registry, this`others, this`files, this`manifest, this`fuel
      ensures registry.Valid() && Extends(old(registry.View()), registry.View())
      ensures Find(registry.batches, id).Some? ==> Valid() && ClockAfterStarts(now)
      ensures exists k: nat :: k <= |inventory| && files.jobs == Artifacts(inventory, evaluations, k)
      ensures files.aborts == map[] && files.abortResults == map[]
      ensures r.Blocked? ==> Find(registry.batches, id).None? && files == NoFiles
      ensures r.Raised? ==>
        || r.fault == RegistryRefused
        || (r.fault == StartRefused(AttemptUnfinished) && ForeignOpen(registry.View(), inventory))
      ensures r.Returned? ==>
        && Valid() && Finished(Now(), id, inventory) && BatchTold(Now(), id, inventory) && files.summary == Some(r.summary)
        && (forall i: nat :: i < |inventory| ==> EvaluationTold(registry.View(), id, inventory[i], evaluations[i], i))
        && files.jobs == Artifacts(inventory, evaluations, |inventory|)
      ensures old(fuel) >= 5 * |inventory| + 5 ==> !r.Died?
    {
      hide Consistent, Extends, Invariant, ForeignOpen, Finished, BatchTold, SlotAt;
      ghost var t0 := registry.View();
      assert files.jobs == Artifacts(inventory, evaluations, 0);
      var blocked := Admit(b);
      if blocked.Some? {
        return blocked.value;
      }
      ghost var t1 := registry.View();
      r := Perform(evaluations, now);
      if r.Returned? {
        ReturnedIsTold(Now(), id, inventory, evaluations);
      }
      ExtendsThrough(t0, t1, registry.View());
    }
  }

  /** One recovery that may die: whether it aborts, how many durable effects it
      takes, its clock, and what others do before each of its effects. */
  datatype Attempted = Attempted(abort: bool, fuel: nat, now: int, others: seq<seq<Call>>)

  /** A run that dies anywhere, then recoveries that die anywhere, each on a
      clock of its own, then one that is left alone: once reserved, the batch
      always ends closed, with exactly one outcome per index and no started
      attempt of the batch open.  `views` are the tables after the run and after
      each recovery: nothing recorded at any of those moments is changed later.
      All along other processes use the registry for their own batches and attempts. */
  method Survive(w: Workspace, b: Batch, evaluations: seq<Evaluation>, now: int, first: nat, crashes: seq<Attempted>, last: Attempted)
      returns (reserved: bool, ghost views: seq<Tables>)
    requires w.Fresh() && b.id == w.id && b.inventory == w.inventory && |evaluations| == |w.inventory|
    requires forall i: nat :: i < |w.inventory| ==> now <= evaluations[i].finished
    requires forall c :: c in crashes + [last] ==> now <= c.now && Polite(c.others, w.id, w.inventory)
    requires last.abort && last.fuel >= 4 * |w.inventory| + 3
    modifies w, w.registry
    ensures w.registry.Valid() && Extends(old(w.registry.View()), w.registry.View())
    ensures reserved <==> Find(w.registry.batches, w.id).Some?
    ensures reserved ==> w.Valid() && Finished(w.Now(), w.id, w.inventory) && BatchTold(w.Now(), w.id, w.inventory)
    ensures reserved ==> |views| == |crashes| + 1
    ensures Lasting(old(w.registry.View()), views, w.registry.View(), w.id)
  {
    hide Consistent, Extends, Invariant, ForeignOpen, Finished, BatchTold, Lasting, Reserved, Polite, Find, Artifacts, SlotAt;
    w.fuel := first;
    views := [];
    var ran := w.Run(b, evaluations, now);
    if Find(w.registry.batches, w.id).None? {
      NothingSeen(old(w.registry.View()), w.registry.View(), w.id);
      return false, views;
    }
    NothingSeen(old(w.registry.View()), w.registry.View(), w.id);
    ViewLasts(old(w.registry.View()), views, w.registry.View(), w.id);
    views := views + [w.registry.View()];
    for k := 0 to |crashes|
      invariant w.Valid() && w.ClockAfterStarts(now)
      invariant Extends(old(w.registry.View()), w.registry.View()) && |views| == k + 1 && Lasting(old(w.registry.View()), views, w.registry.View(), w.id)
    {
      ghost var t := w.registry.View();
      assert crashes[k] in crashes + [last];
      var again := RecoverAgain(w, now, crashes[k]);
      ViewsExtend(old(w.registry.View()), views, t, w.registry.View(), w.id);
      ViewLasts(old(w.registry.View()), views, w.registry.View(), w.id);
      views := views + [w.registry.View()];
    }
    ghost var t := w.registry.View();
    assert last in crashes + [last];
    var closed := RecoverAgain(w, now, last);
    ViewsExtend(old(w.registry.View()), views, t, w.registry.View(), w.id);
    return true, views;
  }

  /** One recovery of a batch whose attempts started no later than `now`; left
      alone, and with abort or nothing to abort, it finishes the batch. */
  method RecoverAgain(w: Workspace, now: int, c: Attempted) returns (r: Ending)
    requires w.Valid() && w.ClockAfterStarts(now) && now <= c.now && Polite(c.others, w.id, w.inventory)
    modifies w, w.registry
    ensures w.Valid() && w.ClockAfterStarts(now) && Extends(old(w.registry.View()), w.registry.View())
    ensures Find(w.registry.batches, w.id).Some? && w.files.jobs == old(w.files.jobs)
    ensures c.fuel >= 4 * |w.inventory| + 3 && (c.abort || forall i: nat :: i < |w.inventory| ==> i in w.files.jobs) ==>
      Finished(w.Now(), w.id, w.inventory) && BatchTold(w.Now(), w.id, w.inventory)
  {
    hide Consistent, Extends, Invariant, Finished, BatchTold, Polite, SlotAt;
    w.Schedule(c.fuel, c.others);
    w.ClockLater(now, c.now);
    if forall i: nat :: i < |w.inventory| ==> i in w.files.jobs {
      w.NothingMissing();
    }
    label before:
    r := w.Recover(c.abort, c.now);
    w.ClockKept@before(now);
    ReservedHolds(w.Now(), w.id, w.inventory);
  }

  /** Every view shows the batch reserved, and nothing recorded in it is changed or missing in the last one. */
  ghost predicate Lasting(start: Tables, views: seq<Tables>, last: Tables, id: string)
  {
    forall j: nat :: j < |views| ==> Find(views[j].batches, id).Some? && Extends(start, views[j]) && Extends(views[j], last)
  }

  lemma NothingSeen(start: Tables, t: Tables, id: string)
    ensures Lasting(start, [], t, id)
  {}

  lemma ViewLasts(start: Tables, views: seq<Tables>, t: Tables, id: string)
    requires Lasting(start, views, t, id) && Extends(start, t) && Find(t.batches, id).Some?
    ensures Lasting(start, views + [t], t, id)
  {
    hide Extends, Find;
    ExtendsSelf(t);
  }

  /** What lasted to one state lasts to the next. */
  lemma ViewsExtend(start: Tables, views: seq<Tables>, t: Tables, u: Tables, id: string)
    requires Extends(start, t) && Extends(t, u) && Lasting(start, views, t, id)
    ensures Extends(start, u) && Lasting(start, views, u, id)
  {
    hide Extends, Find;
    ExtendsThrough(start, t, u);
    forall j: nat | j < |views|
      ensures Extends(views[j], u)
    {
      ExtendsThrough(views[j], t, u);
    }
  }

  /** The same batch run twice, once uninterrupted and once dying after every
      job directory was finalized: however often recovery without abort dies in
      between, it ends with what the uninterrupted run ended with. */
  method RecoverWithoutAbort(w: Workspace, twin: Workspace, b: Batch, evaluations: seq<Evaluation>, now: int, first: nat,
                             crashes: seq<Attempted>, last: Attempted)
      returns (whole: Ending, complete: bool)
    requires {w, w.registry} !! {twin, twin.registry}
    requires w.Fresh() && twin.Fresh() && b.id == w.id == twin.id && b.inventory == w.inventory == twin.inventory
    requires |evaluations| == |w.inventory| && forall i: nat :: i < |w.inventory| ==> now <= evaluations[i].finished
    requires forall c :: c in crashes + [last] ==> !c.abort && now <= c.now && Polite(c.others, w.id, w.inventory)
    requires last.fuel >= 4 * |w.inventory| + 3
    modifies w, w.registry, twin, twin.registry
    ensures !whole.Died?
    ensures complete <==> Find(w.registry.batches, w.id).Some? && forall i: nat :: i < |w.inventory| ==> i in w.files.jobs
    ensures whole.Returned? ==> twin.Valid() && Finished(twin.Now(), twin.id, twin.inventory) && BatchTold(twin.Now(), twin.id, twin.inventory)
    ensures complete ==> w.Valid() && Finished(w.Now(), w.id, w.inventory) && BatchTold(w.Now(), w.id, w.inventory)
    ensures whole.Returned? && complete ==> SameEnd(w.Now(), twin.Now(), w.id, w.inventory)
  {
    hide Consistent, Extends, Invariant, ForeignOpen, Finished, BatchTold, SameEnd;
    twin.fuel := 5 * |twin.inventory| + 5;
    whole := twin.Run(b, evaluations, now);
    w.fuel := first;
    var ran := w.Run(b, evaluations, now);
    complete := Find(w.registry.batches, w.id).Some? && forall i: nat :: i < |w.inventory| ==> i in w.files.jobs;
    if !complete {
      return;
    }
    AllArtifacts(w.inventory, evaluations, w.files.jobs);
    RecoverRepeatedly(w, now, crashes, last);
    if whole.Returned? {
      SameFinish(w.Now(), twin.Now(), w.id, w.inventory);
    }
  }

  /** Recoveries without abort that may die, then one that is left alone. */
  method RecoverRepeatedly(w: Workspace, now: int, crashes: seq<Attempted>, last: Attempted)
    requires w.Valid() && w.ClockAfterStarts(now) && forall i: nat :: i < |w.inventory| ==> i in w.files.jobs
    requires forall c :: c in crashes + [last] ==> !c.abort && now <= c.now && Polite(c.others, w.id, w.inventory)
    requires last.fuel >= 4 * |w.inventory| + 3
    modifies w, w.registry
    ensures w.Valid() && Finished(w.Now(), w.id, w.inventory) && BatchTold(w.Now(), w.id, w.inventory) && w.files.jobs == old(w.files.jobs)
    ensures Find(w.registry.batches, w.id).Some?
  {
    hide Consistent, Extends, Invariant, Finished, BatchTold;
    for k := 0 to |crashes|
      invariant w.Valid() && w.ClockAfterStarts(now) && w.files.jobs == old(w.files.jobs)
    {
      assert crashes[k] in crashes + [last];
      var again := RecoverAgain(w, now, crashes[k]);
    }
    assert last in crashes + [last];
    var closed := RecoverAgain(w, now, last);
  }

  /** Finalized job directories that cover the inventory are the whole run's. */
  lemma AllArtifacts(inventory: seq<Item>, evaluations: seq<Evaluation>, jobs: map<nat, JobResult>)
    requires |evaluations| == |inventory| && forall i: nat :: i < |inventory| ==> i in jobs
    requires exists k: nat :: k <= |inventory| && jobs == Artifacts(inventory, evaluations, k)
    ensures jobs == Artifacts(inventory, evaluations, |inventory|)
  {
    hide Artifacts;
    var k: nat :| k <= |inventory| && jobs == Artifacts(inventory, evaluations, k);
    ArtifactsReach(inventory, evaluations, k, |inventory|);
  }

  /** The artifacts of the first `k` items include that of item `i` only if `i` is one of them. */
  lemma ArtifactsReach(inventory: seq<Item>, evaluations: seq<Evaluation>, k: nat, n: nat)
    requires k <= |inventory| == |evaluations| == n
    ensures k < n ==> k !in Artifacts(inventory, evaluations, k)
  {
    hide Artifacts;
    ArtifactsFull(inventory, evaluations, k);
  }

  /** The tested versions of a batch differ, so an open attempt in the way is not one of its own. */
  lemma OpenIsForeign(s: Store, id: string, inventory: seq<Item>, i: nat, now: int)
    requires Consistent(s, id, inventory) && i < |inventory| && inventory[i].attempt.Some? && inventory[i].identity.Some?
    requires forall k: nat :: k < |inventory| ==> SlotAt(s, id, inventory, k) == if k < i then StartedSlot(inventory[k], now) else EmptySlot
    requires VersionOpen(s.t.attempts, s.t.verdicts, inventory[i].identity.value)
    ensures ForeignOpen(s.t, inventory)
  {
    hide SlotsOk, ClosingOk, Bounded, Reserved;
    var t := s.t;
    var a :| a in t.attempts && a !in t.verdicts && SameVersion(t.attempts[a].identity, inventory[i].identity.value);
    if Own(inventory, a) {
      OwnVersions(s, id, inventory, i, now, a);
    }
    assert Open(t, a);
  }

  lemma OwnVersions(s: Store, id: string, inventory: seq<Item>, i: nat, now: int, a: string)
    requires Consistent(s, id, inventory) && i < |inventory| && inventory[i].attempt.Some? && inventory[i].identity.Some?
    requires forall k: nat :: k < |inventory| ==> SlotAt(s, id, inventory, k) == if k < i then StartedSlot(inventory[k], now) else EmptySlot
    requires Own(inventory, a) && a in s.t.attempts
    ensures !SameVersion(s.t.attempts[a].identity, inventory[i].identity.value)
  {
    hide SlotsOk, ClosingOk, Bounded, Reserved;
    var j: nat :| j < |inventory| && inventory[j].attempt == Some(a);
    assert SlotAt(s, id, inventory, j).attempt == Some(s.t.attempts[a]);
    assert j < i && inventory[j].identity == Some(s.t.attempts[a].identity);
  }

  lemma StillFresh(t: Tables, u: Tables, id: string, inventory: seq<Item>)
    requires SameRows(t, u, id, inventory) && Find(t.batches, id).None?
    requires forall i: nat :: i < |inventory| && inventory[i].attempt.Some? ==> inventory[i].attempt.value !in t.attempts
    ensures Find(u.batches, id).None?
    ensures forall i: nat :: i < |inventory| && inventory[i].attempt.Some? ==> inventory[i].attempt.value !in u.attempts
  {
    hide Find;
    forall i: nat | i < |inventory| && inventory[i].attempt.Some?
      ensures inventory[i].attempt.value !in u.attempts
    {
      assert Own(inventory, inventory[i].attempt.value);
    }
  }

  lemma SummarySteady(t: Tables, u: Tables, id: string, inventory: seq<Item>)
    requires SameRows(t, u, id, inventory)
    ensures JobsOf(u, id) == JobsOf(t, id)
    ensures SummaryOf(u.attempts, u.verdicts, JobsOf(u, id), id, inventory) == SummaryOf(t.attempts, t.verdicts, JobsOf(t, id), id, inventory)
  {
    hide SummaryOf, Find;
    UndisturbedSummary(t, u, id, inventory);
  }

  /** An attempt of a fresh identifier is started unless its version is open elsewhere. */
  lemma StartAccepted(s: Store, id: string, inventory: seq<Item>, i: nat, terms: Attempt)
    requires Consistent(s, id, inventory) && i < |inventory| && inventory[i].attempt.Some?
    requires SlotAt(s, id, inventory, i) == EmptySlot && terms.phase == Development
    ensures var a := inventory[i].attempt.value;
      var r := Apply(s.t, Start(a, terms));
      && (if VersionOpen(s.t.attempts, s.t.verdicts, terms.identity) then r == Err(AttemptUnfinished)
          else r == Ok(s.t.(attempts := s.t.attempts[a := terms])))
      && Consistent(s.(t := s.t.(attempts := s.t.attempts[a := terms])), id, inventory)
      && SlotAt(s.(t := s.t.(attempts := s.t.attempts[a := terms])), id, inventory, i) == EmptySlot.(attempt := Some(terms))
      && forall k: nat :: k < |inventory| && k != i ==>
           SlotAt(s.(t := s.t.(attempts := s.t.attempts[a := terms])), id, inventory, k) == SlotAt(s, id, inventory, k)
  {
    hide SlotOk, ClosingOk, VersionOpen, IsToken;
    SlotHolds(s, id, inventory, i);
    AttemptsApart(inventory, i);
    StartKeeps(s, id, inventory, i, terms);
  }

  lemma NotEnded(s: Store, id: string, inventory: seq<Item>, i: nat)
    requires Consistent(s, id, inventory) && i < |inventory|
    ensures !inventory[i].status.Ended?
  {
    SlotHolds(s, id, inventory, i);
  }

  lemma FinishesThen(item: Item, e: Evaluation)
    ensures ResultOf(item, e).finished == e.finished
  {}

  lemma ArtifactMatches(s: Store, id: string, inventory: seq<Item>, i: nat)
    requires Consistent(s, id, inventory) && i < |inventory| && Artifact(SlotAt(s, id, inventory, i), i).Some?
    ensures Matches(inventory[i], Artifact(SlotAt(s, id, inventory, i), i).value.result)
  {
    SlotHolds(s, id, inventory, i);
  }

  lemma RecordedSlot(s: Store, id: string, inventory: seq<Item>, k: nat)
    requires k < |inventory| && SlotAt(s, id, inventory, k).record.Some?
    ensures k in JobsOf(s.t, id)
  {}

  lemma ReservedHolds(s: Store, id: string, inventory: seq<Item>)
    requires Consistent(s, id, inventory)
    ensures Find(s.t.batches, id).Some? && Find(s.t.batches, id).value.inventory == inventory
  {}

  lemma ClosedHolds(s: Store, id: string, inventory: seq<Item>)
    requires Consistent(s, id, inventory) && id in s.t.closings
    ensures s.t.closings[id].artifact == s.files && s.files.summary.Some?
  {}

  lemma SlotFacts(s: Store, id: string, inventory: seq<Item>, i: nat)
    requires Consistent(s, id, inventory) && i < |inventory|
    ensures var x := SlotAt(s, id, inventory, i);
      && (x.record.Some? ==> Artifact(x, i) == x.record)
      && (x.job.Some? ==> x.abort.None?)
  {}

  /** Job directories alone never call for an aborted status. */
  lemma NoAborts(s: Store, id: string, inventory: seq<Item>)
    requires Consistent(s, id, inventory) && s.files.aborts == map[]
    ensures !AnyStatus(JobsOf(s.t, id), Aborted)
  {
    var jobs := JobsOf(s.t, id);
    forall i <- jobs
      ensures jobs[i].result.status != Ended(Aborted)
    {
      SlotHolds(s, id, inventory, i);
      NoAbortSlot(inventory[i], SlotAt(s, id, inventory, i));
    }
  }

  lemma NoAbortSlot(item: Item, x: Slot)
    requires SlotOk(item, x) && x.abort.None? && x.record.Some? && !item.status.Ended?
    ensures x.record.value.result.status != Ended(Aborted)
  {}

  /** Right after admission the batch is consistent and nothing else is recorded for it. */
  lemma ReservedStore(t: Tables, b: Batch, id: string, inventory: seq<Item>)
    requires Invariant(t) && WellFormed(inventory) && b.id == id && b.inventory == inventory && Find(t.batches, id).None?
    requires forall i: nat :: i < |inventory| && inventory[i].attempt.Some? ==> inventory[i].attempt.value !in t.attempts
    requires Apply(t, Reserve(b)).Ok? && After(t, Reserve(b)).batches == t.batches + [b]
    ensures var u := After(t, Reserve(b));
      && u == t.(requests := u.requests, batches := u.batches)
      && Find(u.batches, id) == Some(b)
      && Consistent(Store(u, NoFiles, None), id, inventory)
      && forall i: nat :: i < |inventory| ==> SlotAt(Store(u, NoFiles, None), id, inventory, i) == EmptySlot
  {
    hide Rejection, IsToken, IsDigest, WellFormed, Chained, BatchesKnown, SummaryOf, StatusOf, AttemptsSingle, OnlyLastOpen;
    VerdictsKnown(t);
    FindAppend(t.batches, b, id);
    hide Find;
    var u := After(t, Reserve(b));
    assert id !in t.jobs;
    assert id !in t.closings;
  }

  lemma VerdictsKnown(t: Tables)
    requires Invariant(t)
    ensures forall a <- t.verdicts :: a in t.attempts
  {
    hide Chained, BatchesKnown, OnlyLastOpen, JobsKnown, ClosedCovered;
  }
}
