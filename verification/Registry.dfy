/** The values a research batch leaves behind: inventory items, job results,
    the records the registry keeps of them, and the files of its output
    directory.  A SHA-256 digest is modelled by the content it is taken of. */
module BatchRecords {
  import opened Exact

  predicate Alphanumeric(c: char) { 'A' <= c <= 'Z' || 'a' <= c <= 'z' || '0' <= c <= '9' }

  predicate IsToken(s: string)
  {
    s != "" && Alphanumeric(s[0]) && forall i :: 1 <= i < |s| ==> Alphanumeric(s[i]) || s[i] in "._:-"
  }

  /** A lower-case hexadecimal SHA-256 digest. */
  predicate IsDigest(s: string) { |s| == 64 && forall i :: 0 <= i < |s| ==> '0' <= s[i] <= '9' || 'a' <= s[i] <= 'f' }

  datatype Outcome = Completed | Failed | Aborted

  /** The status of an inventory item before it runs, or the outcome of one that did. */
  datatype Status = Admitted | Unsupported | Invalid | Duplicate | Ended(outcome: Outcome)

  datatype Identity = Identity(sha: string, strategy: string, version: string)

  datatype JobKind = Malformed | StrategyJob | BenchmarkJob

  datatype Item = Item(index: nat, kind: JobKind, status: Status, reason: Option<string>, key: Option<string>,
                       duplicateOf: Option<nat>, attempt: Option<string>, identity: Option<Identity>)

  /** A `result.json`; `payload` stands for the metrics, the trace and the failure text beside it. */
  datatype JobResult = JobResult(index: nat, attempt: Option<string>, identity: Option<string>, status: Status,
                                 reason: Option<string>, payload: string, finished: int)

  datatype Directory = JobDir(index: nat) | AbortDir(index: nat)

  type JobDigest = JobResult

  /** A row of the job outcome table. */
  datatype Record = Record(result: JobResult, artifact: JobDigest, directory: Directory)

  datatype Summary = Summary(batch: string, status: Outcome, jobs: seq<Record>, submitted: nat, distinct: nat,
                             reserved: nat, attempts: nat, terminalAttempts: nat, strategyJobs: nat, benchmarkJobs: nat)

  /** The files of an output directory: `result.json` files without a manifest yet, finalized
      job directories, the same for abort directories, the timing and the summary. */
  datatype Files = Files(partials: map<nat, JobResult>, jobs: map<nat, JobResult>, abortResults: map<nat, JobResult>,
                         aborts: map<nat, JobResult>, timing: bool, summary: Option<Summary>)

  type OutputDigest = Files
}

/** The append-only trial registry: admission of batches and attempts, and
    their single terminal outcomes. */
module Registry {
  import opened Exact
  import opened BatchRecords
  import I = ExperimentIdentity

  datatype Phase = Development | Validation | Untouched

  datatype Attempt = Attempt(identity: Identity, phase: Phase, started: int)
  datatype Verdict = Verdict(outcome: Outcome, finished: int, reason: Option<string>, artifact: Option<JobDigest>)
  datatype Reason = PhaseNotEnabled | AlreadyReserved | RetryIdentityChanged | InvalidRetryParent | UnfinishedBatch
  datatype Request = Request(plan: string, received: int, reason: Option<Reason>)
  datatype Batch = Batch(id: string, family: string, generation: string, phase: Phase, plan: string,
                         inventory: seq<Item>, retryOf: Option<string>, started: int)
  datatype Closing = Closing(outcome: Outcome, finished: int, artifact: OutputDigest)

  /** The tables; batches keep their row order. */
  datatype Tables = Tables(attempts: map<string, Attempt>, verdicts: map<string, Verdict>, requests: map<string, Request>,
                           batches: seq<Batch>, jobs: map<string, map<int, Record>>, closings: map<string, Closing>)

  datatype Fault = InvalidIdentity | EmptyInventory | RequestExists | DifferentTerms | AttemptUnfinished | ValidationOpened
                 | UntouchedOpened | UnknownAttempt | FinishedBeforeStart | VerdictDiffers | UnknownJob | JobDiffers
                 | IncompleteInventory | ClosingDiffers
  datatype Result<+T> = Ok(value: T) | Err(fault: Fault)

  // ----- queries

  /** The latest row of a family, generation and phase. */
  function Latest(batches: seq<Batch>, family: string, generation: string, phase: Phase): Option<nat>
  {
    if batches == [] then None
    else
      var last := batches[|batches| - 1];
      if last.family == family && last.generation == generation && last.phase == phase then Some(|batches| - 1)
      else Latest(batches[..|batches| - 1], family, generation, phase)
  }

  function Find(batches: seq<Batch>, id: string): Option<Batch>
  {
    if batches == [] then None
    else if batches[|batches| - 1].id == id then Some(batches[|batches| - 1])
    else Find(batches[..|batches| - 1], id)
  }

  function JobsOf(t: Tables, id: string): map<int, Record> { if id in t.jobs then t.jobs[id] else map[] }

  function Identities(inventory: seq<Item>): seq<Option<Identity>>
  {
    seq(|inventory|, i requires 0 <= i < |inventory| => inventory[i].identity)
  }

  predicate Open(t: Tables, attempt: string) { attempt in t.attempts && attempt !in t.verdicts }

  predicate SameVersion(a: Identity, b: Identity) { a.strategy == b.strategy && a.version == b.version }

  predicate Unfinished(batches: seq<Batch>, closings: map<string, Closing>)
  {
    exists i :: 0 <= i < |batches| && batches[i].id !in closings
  }

  predicate VersionOpen(attempts: map<string, Attempt>, verdicts: map<string, Verdict>, identity: Identity)
  {
    exists a <- attempts :: a !in verdicts && SameVersion(attempts[a].identity, identity)
  }

  predicate ShaValidated(attempts: map<string, Attempt>, identity: Identity)
  {
    exists a <- attempts :: attempts[a].phase == Validation && attempts[a].identity.sha == identity.sha
  }

  predicate VersionUntouched(attempts: map<string, Attempt>, identity: Identity)
  {
    exists a <- attempts :: attempts[a].phase == Untouched && SameVersion(attempts[a].identity, identity)
  }

  // ----- each transaction as one step

  datatype Call =
    | Reserve(batch: Batch)
    | Start(attempt: string, terms: Attempt)
    | Finish(attempt: string, verdict: Verdict)
    | FinishJob(id: string, index: int, job: Record)
    | Close(id: string, closing: Closing)

  /** Why a request is not admitted; later checks override earlier ones. */
  function Rejection(t: Tables, b: Batch): Option<Reason>
  {
    var prior := Latest(t.batches, b.family, b.generation, b.phase);
    if Unfinished(t.batches, t.closings) then Some(UnfinishedBatch)
    else if prior.Some? then
      (LatestMatches(t.batches, b.family, b.generation, b.phase);
       var p := t.batches[prior.value];
       if b.retryOf != Some(p.id) || p.id !in t.closings || t.closings[p.id].outcome == Completed || p.plan != b.plan
       then Some(AlreadyReserved)
       else if Identities(p.inventory) != Identities(b.inventory) then Some(RetryIdentityChanged)
       else if b.phase != Development then Some(PhaseNotEnabled) else None)
    else if b.retryOf.Some? then Some(InvalidRetryParent)
    else if b.phase != Development then Some(PhaseNotEnabled) else None
  }

  function Apply(t: Tables, c: Call): Result<Tables>
  {
    match c
    case Reserve(b) =>
      if !IsToken(b.id) || !IsToken(b.family) || !IsToken(b.generation) || !IsDigest(b.plan) then Err(InvalidIdentity)
      else if b.inventory == [] then Err(EmptyInventory)
      else if b.id in t.requests then Err(RequestExists)
      else
        var reason := Rejection(t, b);
        var received := t.(requests := t.requests[b.id := Request(b.plan, b.started, reason)]);
        Ok(if reason.Some? then received else received.(batches := t.batches + [b]))
    case Start(attempt, terms) =>
      if !IsToken(attempt) then Err(InvalidIdentity)
      else if attempt in t.attempts then (if t.attempts[attempt] == terms then Ok(t) else Err(DifferentTerms))
      else if VersionOpen(t.attempts, t.verdicts, terms.identity) then Err(AttemptUnfinished)
      else if terms.phase == Validation && ShaValidated(t.attempts, terms.identity) then Err(ValidationOpened)
      else if terms.phase == Untouched && VersionUntouched(t.attempts, terms.identity) then Err(UntouchedOpened)
      else Ok(t.(attempts := t.attempts[attempt := terms]))
    case Finish(attempt, verdict) =>
      if verdict.reason.Some? && !IsToken(verdict.reason.value) then Err(InvalidIdentity)
      else if attempt !in t.attempts then Err(UnknownAttempt)
      else if verdict.finished < t.attempts[attempt].started then Err(FinishedBeforeStart)
      else if attempt in t.verdicts then (if t.verdicts[attempt] == verdict then Ok(t) else Err(VerdictDiffers))
      else Ok(t.(verdicts := t.verdicts[attempt := verdict]))
    case FinishJob(id, index, job) =>
      var batch := Find(t.batches, id);
      if batch.None? || !(0 <= index < |batch.value.inventory|) then Err(UnknownJob)
      else if index in JobsOf(t, id) then (if JobsOf(t, id)[index] == job then Ok(t) else Err(JobDiffers))
      else Ok(t.(jobs := t.jobs[id := JobsOf(t, id)[index := job]]))
    case Close(id, closing) =>
      var batch := Find(t.batches, id);
      if batch.None? || |JobsOf(t, id)| != |batch.value.inventory| then Err(IncompleteInventory)
      else if id in t.closings then
        (if t.closings[id].outcome == closing.outcome && t.closings[id].artifact == closing.artifact then Ok(t) else Err(ClosingDiffers))
      else Ok(t.(closings := t.closings[id := closing]))
  }

  function After(t: Tables, c: Call): Tables { if Apply(t, c).Ok? then Apply(t, c).value else t }

  function RunOf(t: Tables, calls: seq<Call>): Tables
  {
    if calls == [] then t else After(RunOf(t, calls[..|calls| - 1]), calls[|calls| - 1])
  }

  const Empty := Tables(map[], map[], map[], [], map[], map[])

  lemma {:induction false} LatestMatches(batches: seq<Batch>, family: string, generation: string, phase: Phase)
    ensures var p := Latest(batches, family, generation, phase);
      if p.Some? then
        && p.value < |batches|
        && batches[p.value].family == family && batches[p.value].generation == generation && batches[p.value].phase == phase
        && forall k :: p.value < k < |batches| ==>
             !(batches[k].family == family && batches[k].generation == generation && batches[k].phase == phase)
      else forall k :: 0 <= k < |batches| ==>
             !(batches[k].family == family && batches[k].generation == generation && batches[k].phase == phase)
  {
    if batches != [] {
      LatestMatches(batches[..|batches| - 1], family, generation, phase);
    }
  }

  lemma {:induction false} FindMatches(batches: seq<Batch>, id: string)
    ensures var f := Find(batches, id);
      if f.Some? then f.value.id == id && f.value in batches else forall k :: 0 <= k < |batches| ==> batches[k].id != id
  {
    if batches != [] {
      FindMatches(batches[..|batches| - 1], id);
    }
  }

  lemma FindAppend(batches: seq<Batch>, b: Batch, id: string)
    ensures Find(batches + [b], id) == if b.id == id then Some(b) else Find(batches, id)
  {
    assert (batches + [b])[..|batches|] == batches;
  }

  // ----- when a request is admitted

  predicate SamePhase(a: Batch, b: Batch) { a.family == b.family && a.generation == b.generation && a.phase == b.phase }

  /** The last batch of a request's family, generation and phase stands at `i`. */
  ghost predicate LastOfStudy(batches: seq<Batch>, b: Batch, i: nat)
  {
    i < |batches| && SamePhase(batches[i], b) && forall k :: i < k < |batches| ==> !SamePhase(batches[k], b)
  }

  /** A retry names the last batch of its study, which failed or was aborted, and repeats its plan and its identities in order. */
  ghost predicate GoodRetry(t: Tables, p: Batch, b: Batch)
  {
    && b.retryOf == Some(p.id) && p.id in t.closings && t.closings[p.id].outcome in {Failed, Aborted} && p.plan == b.plan
    && |p.inventory| == |b.inventory| && forall k :: 0 <= k < |b.inventory| ==> p.inventory[k].identity == b.inventory[k].identity
  }

  /** A request is admitted exactly in development, while every batch is closed,
      either as the first of its study and no retry, or as a good retry of the last one. */
  lemma AdmittedExactly(t: Tables, b: Batch)
    ensures Rejection(t, b).None? <==>
      && b.phase == Development
      && (forall i :: 0 <= i < |t.batches| ==> t.batches[i].id in t.closings)
      && ((b.retryOf == None && forall i :: 0 <= i < |t.batches| ==> !SamePhase(t.batches[i], b))
          || exists i: nat :: LastOfStudy(t.batches, b, i) && GoodRetry(t, t.batches[i], b))
  {
    LatestMatches(t.batches, b.family, b.generation, b.phase);
    var prior := Latest(t.batches, b.family, b.generation, b.phase);
    hide Latest;
    if prior.Some? {
      var p := t.batches[prior.value];
      assert LastOfStudy(t.batches, b, prior.value);
      SameIdentities(p.inventory, b.inventory);
      hide Identities;
      forall i: nat
        ensures LastOfStudy(t.batches, b, i) <==> i == prior.value
      {}
    }
  }

  lemma SameIdentities(a: seq<Item>, b: seq<Item>)
    ensures Identities(a) == Identities(b) <==> |a| == |b| && forall k :: 0 <= k < |b| ==> a[k].identity == b[k].identity
  {
    if Identities(a) == Identities(b) {
      assert |Identities(a)| == |Identities(b)|;
      forall k | 0 <= k < |b|
        ensures a[k].identity == b[k].identity
      {
        assert Identities(a)[k] == Identities(b)[k];
      }
    }
  }

  /** A start is accepted exactly for a portable name that is new, or known with
      the same terms; new only while nobody has its version open, has validated
      its identity, or has opened its untouched data, as its phase asks. */
  lemma StartedExactly(t: Tables, attempt: string, terms: Attempt)
    ensures Apply(t, Start(attempt, terms)).Ok? <==>
      && IsToken(attempt)
      && (attempt in t.attempts ==> t.attempts[attempt] == terms)
      && (attempt !in t.attempts ==>
            && (forall a <- t.attempts :: a !in t.verdicts ==>
                  t.attempts[a].identity.strategy != terms.identity.strategy || t.attempts[a].identity.version != terms.identity.version)
            && (terms.phase == Validation ==>
                  forall a <- t.attempts :: t.attempts[a].phase == Validation ==> t.attempts[a].identity.sha != terms.identity.sha)
            && (terms.phase == Untouched ==>
                  forall a <- t.attempts :: t.attempts[a].phase == Untouched ==>
                    t.attempts[a].identity.strategy != terms.identity.strategy || t.attempts[a].identity.version != terms.identity.version))
  {
    hide IsToken;
  }

  // ----- the invariant of every run

  ghost predicate BatchesKnown(t: Tables)
  {
    && (forall i :: 0 <= i < |t.batches| ==>
          && t.batches[i].id in t.requests && t.requests[t.batches[i].id].reason.None?
          && t.batches[i].inventory != [] && t.batches[i].phase == Development)
    && (forall i, j :: 0 <= i < j < |t.batches| ==> t.batches[i].id != t.batches[j].id)
  }

  ghost predicate JobsKnown(t: Tables)
  {
    forall id <- t.jobs :: Find(t.batches, id).Some?
      && forall k <- t.jobs[id] :: 0 <= k < |Find(t.batches, id).value.inventory|
  }

  /** Every index of the inventory has an outcome. */
  ghost predicate Covered(t: Tables, id: string)
  {
    && Find(t.batches, id).Some?
    && forall k :: 0 <= k < |Find(t.batches, id).value.inventory| ==> k in JobsOf(t, id)
  }

  ghost predicate ClosedCovered(t: Tables) { forall id <- t.closings :: Covered(t, id) }

  ghost predicate OnlyLastOpen(t: Tables)
  {
    forall i :: 0 <= i < |t.batches| - 1 ==> t.batches[i].id in t.closings
  }

  /** A batch retries the latest one of its family and generation, and only after that one failed or was aborted. */
  ghost predicate Linked(t: Tables, i: nat)
    requires i < |t.batches|
  {
    var b := t.batches[i];
    var prior := Latest(t.batches[..i], b.family, b.generation, b.phase);
    if prior.None? then b.retryOf == None
    else
      && prior.value < i
      && var p := t.batches[prior.value];
      && b.retryOf == Some(p.id) && p.plan == b.plan && Identities(p.inventory) == Identities(b.inventory)
      && p.id in t.closings && t.closings[p.id].outcome != Completed
  }

  ghost predicate Chained(t: Tables) { forall i: nat :: i < |t.batches| ==> Linked(t, i) }

  ghost predicate VerdictsFollow(t: Tables)
  {
    forall a <- t.verdicts :: a in t.attempts && t.attempts[a].started <= t.verdicts[a].finished
  }

  ghost predicate OneOpenVersion(t: Tables)
  {
    forall a, b :: Open(t, a) && Open(t, b) && a != b ==> !SameVersion(t.attempts[a].identity, t.attempts[b].identity)
  }

  ghost predicate OneValidation(attempts: map<string, Attempt>)
  {
    forall a, b :: a in attempts && b in attempts && a != b && attempts[a].phase == attempts[b].phase == Validation ==>
      attempts[a].identity.sha != attempts[b].identity.sha
  }

  ghost predicate OneUntouched(attempts: map<string, Attempt>)
  {
    forall a, b :: a in attempts && b in attempts && a != b && attempts[a].phase == attempts[b].phase == Untouched ==>
      !SameVersion(attempts[a].identity, attempts[b].identity)
  }

  ghost predicate AttemptsSingle(t: Tables)
  {
    VerdictsFollow(t) && OneOpenVersion(t) && OneValidation(t.attempts) && OneUntouched(t.attempts)
  }

  ghost predicate Invariant(t: Tables)
  {
    BatchesKnown(t) && JobsKnown(t) && ClosedCovered(t) && OnlyLastOpen(t) && Chained(t) && AttemptsSingle(t)
  }

  /** No row is ever changed or deleted. */
  ghost predicate Extends(s: Tables, t: Tables)
  {
    && (forall a <- s.attempts :: a in t.attempts && t.attempts[a] == s.attempts[a])
    && (forall a <- s.verdicts :: a in t.verdicts && t.verdicts[a] == s.verdicts[a])
    && (forall r <- s.requests :: r in t.requests && t.requests[r] == s.requests[r])
    && s.batches <= t.batches
    && (forall id <- s.jobs :: id in t.jobs && forall k <- s.jobs[id] :: k in t.jobs[id] && t.jobs[id][k] == s.jobs[id][k])
    && (forall id <- s.closings :: id in t.closings && t.closings[id] == s.closings[id])
  }

  /** As many distinct bounded keys as there are places fill every place. */
  lemma {:induction false} Pigeonhole(keys: set<int>, n: nat)
    requires forall k <- keys :: 0 <= k < n
    ensures |keys| <= n
    ensures |keys| == n <==> forall k :: 0 <= k < n ==> k in keys
    decreases n
  {
    if n > 0 {
      var rest := keys - {n - 1};
      Pigeonhole(rest, n - 1);
      if n - 1 in keys {
        assert keys == rest + {n - 1};
        assert |keys| == |rest| + 1;
      } else {
        assert keys == rest;
      }
    } else {
      forall k | k in keys ensures false {}
      assert keys == {};
    }
  }

  lemma CountCovers(t: Tables, id: string)
    requires JobsKnown(t) && Find(t.batches, id).Some?
    ensures |JobsOf(t, id)| == |Find(t.batches, id).value.inventory| <==> Covered(t, id)
  {
    var jobs := JobsOf(t, id);
    assert |jobs| == |jobs.Keys|;
    Pigeonhole(jobs.Keys, |Find(t.batches, id).value.inventory|);
  }

  // One lemma per part of the invariant: what it keeps when its own tables stay.

  lemma SameAttempts(t: Tables, u: Tables)
    requires AttemptsSingle(t) && u.attempts == t.attempts && u.verdicts == t.verdicts
    ensures AttemptsSingle(u)
  {
    assert forall a :: Open(u, a) <==> Open(t, a);
  }

  lemma SameBatches(t: Tables, u: Tables)
    requires BatchesKnown(t) && Chained(t) && OnlyLastOpen(t) && u.batches == t.batches
    requires forall r <- t.requests :: r in u.requests && u.requests[r] == t.requests[r]
    requires forall id <- t.closings :: id in u.closings && u.closings[id] == t.closings[id]
    ensures BatchesKnown(u) && Chained(u) && OnlyLastOpen(u)
  {
    hide Latest, Identities;
    forall i: nat | i < |u.batches|
      ensures Linked(u, i)
    {
      assert Linked(t, i);
    }
  }

  lemma SameJobs(t: Tables, u: Tables)
    requires JobsKnown(t) && ClosedCovered(t) && u.jobs == t.jobs && u.closings == t.closings
    requires forall id :: Find(t.batches, id).Some? ==> Find(u.batches, id) == Find(t.batches, id)
    ensures JobsKnown(u) && ClosedCovered(u)
  {
    hide Find;
    forall id <- u.closings
      ensures Covered(u, id)
    {
      assert Covered(t, id) && JobsOf(u, id) == JobsOf(t, id);
    }
  }

  lemma RequestExtends(t: Tables, u: Tables)
    requires u == t.(requests := u.requests, batches := u.batches) && t.batches <= u.batches
    requires forall r <- t.requests :: r in u.requests && u.requests[r] == t.requests[r]
    ensures Extends(t, u)
  {}

  lemma AdmissionLinks(t: Tables, b: Batch, u: Tables)
    requires Chained(t) && OnlyLastOpen(t) && BatchesKnown(t) && Rejection(t, b).None? && b.id !in t.requests && b.inventory != []
    requires u.batches == t.batches + [b] && u.closings == t.closings
    requires u.requests == t.requests[b.id := Request(b.plan, b.started, None)]
    ensures Chained(u) && OnlyLastOpen(u) && BatchesKnown(u)
  {
    hide Identities, Latest;
    LatestMatches(t.batches, b.family, b.generation, b.phase);
    assert u.batches[..|t.batches|] == t.batches;
    forall i: nat | i < |u.batches|
      ensures Linked(u, i)
    {
      if i < |t.batches| {
        assert Linked(t, i) && u.batches[..i] == t.batches[..i];
      }
    }
  }

  lemma ReserveKeeps(t: Tables, b: Batch)
    requires Invariant(t) && Apply(t, Reserve(b)).Ok?
    ensures Invariant(After(t, Reserve(b))) && Extends(t, After(t, Reserve(b)))
  {
    hide Chained, OnlyLastOpen, BatchesKnown, JobsKnown, ClosedCovered, AttemptsSingle, Extends, IsToken, IsDigest, Find, Rejection;
    var u := After(t, Reserve(b));
    SameAttempts(t, u);
    RequestExtends(t, u);
    forall id
      ensures Find(t.batches, id).Some? ==> Find(u.batches, id) == Find(t.batches, id)
    {
      FindRequested(t, b, id);
    }
    SameJobs(t, u);
    if Rejection(t, b).None? {
      AdmissionLinks(t, b, u);
    } else {
      SameBatches(t, u);
    }
  }

  lemma FindRequested(t: Tables, b: Batch, id: string)
    requires BatchesKnown(t) && b.id !in t.requests
    ensures Find(t.batches, id).Some? ==> Find(t.batches + [b], id) == Find(t.batches, id)
  {
    FindMatches(t.batches, id);
    FindAppend(t.batches, b, id);
  }

  /** The attempts table after an admitted start. */
  ghost predicate AttemptAdded(t: Tables, u: Tables, attempt: string, terms: Attempt)
  {
    || u == t
    || (&& attempt !in t.attempts && u == t.(attempts := t.attempts[attempt := terms])
        && !VersionOpen(t.attempts, t.verdicts, terms.identity)
        && (terms.phase == Validation ==> !ShaValidated(t.attempts, terms.identity))
        && (terms.phase == Untouched ==> !VersionUntouched(t.attempts, terms.identity)))
  }

  lemma StartAdds(t: Tables, attempt: string, terms: Attempt)
    ensures AttemptAdded(t, After(t, Start(attempt, terms)), attempt, terms)
  {
    hide IsToken, VersionOpen, ShaValidated, VersionUntouched;
  }

  lemma AddedSingle(t: Tables, u: Tables, attempt: string, terms: Attempt)
    requires AttemptsSingle(t) && AttemptAdded(t, u, attempt, terms)
    ensures AttemptsSingle(u)
  {
    hide OneOpenVersion, OneValidation, OneUntouched, VersionOpen, ShaValidated, VersionUntouched;
    if u != t {
      AddedOpen(t, u, attempt, terms);
      AddedValidation(t.attempts, attempt, terms);
      AddedUntouched(t.attempts, attempt, terms);
    }
  }

  lemma AddedOpen(t: Tables, u: Tables, attempt: string, terms: Attempt)
    requires OneOpenVersion(t) && attempt !in t.attempts && u == t.(attempts := t.attempts[attempt := terms])
    requires !VersionOpen(t.attempts, t.verdicts, terms.identity)
    ensures OneOpenVersion(u)
  {
    assert forall a :: Open(u, a) ==> a == attempt || Open(t, a);
  }

  lemma AddedValidation(attempts: map<string, Attempt>, attempt: string, terms: Attempt)
    requires OneValidation(attempts) && attempt !in attempts && (terms.phase == Validation ==> !ShaValidated(attempts, terms.identity))
    ensures OneValidation(attempts[attempt := terms])
  {}

  lemma AddedUntouched(attempts: map<string, Attempt>, attempt: string, terms: Attempt)
    requires OneUntouched(attempts) && attempt !in attempts && (terms.phase == Untouched ==> !VersionUntouched(attempts, terms.identity))
    ensures OneUntouched(attempts[attempt := terms])
  {}

  ghost predicate VerdictAdded(t: Tables, u: Tables, attempt: string, verdict: Verdict)
  {
    || u == t
    || (&& attempt in t.attempts && attempt !in t.verdicts && t.attempts[attempt].started <= verdict.finished
        && u == t.(verdicts := t.verdicts[attempt := verdict]))
  }

  lemma FinishAdds(t: Tables, attempt: string, verdict: Verdict)
    ensures VerdictAdded(t, After(t, Finish(attempt, verdict)), attempt, verdict)
  {
    hide IsToken;
  }

  lemma FinishedSingle(t: Tables, u: Tables, attempt: string, verdict: Verdict)
    requires AttemptsSingle(t) && VerdictAdded(t, u, attempt, verdict)
    ensures AttemptsSingle(u)
  {
    assert forall a :: Open(u, a) ==> Open(t, a);
  }

  lemma AttemptKeeps(t: Tables, c: Call)
    requires Invariant(t) && (c.Start? || c.Finish?)
    ensures Invariant(After(t, c)) && Extends(t, After(t, c))
  {
    hide Chained, OnlyLastOpen, BatchesKnown, JobsKnown, ClosedCovered, AttemptsSingle, Find, Apply, After,
      VersionOpen, ShaValidated, VersionUntouched;
    match c {
      case Start(attempt, terms) =>
        StartAdds(t, attempt, terms);
        AddedSingle(t, After(t, c), attempt, terms);
      case Finish(attempt, verdict) =>
        FinishAdds(t, attempt, verdict);
        FinishedSingle(t, After(t, c), attempt, verdict);
    }
    SameBatches(t, After(t, c));
    SameJobs(t, After(t, c));
  }

  /** Adding one job row, or nothing. */
  ghost predicate JobAdded(t: Tables, u: Tables, id: string, index: int, job: Record)
  {
    u == t || (index !in JobsOf(t, id) && u == t.(jobs := t.jobs[id := JobsOf(t, id)[index := job]]))
  }

  lemma JobExtends(t: Tables, u: Tables, id: string, index: int, job: Record)
    requires JobAdded(t, u, id, index, job)
    ensures Extends(t, u)
  {}

  lemma JobKeeps(t: Tables, id: string, index: int, job: Record)
    requires Invariant(t)
    ensures Invariant(After(t, FinishJob(id, index, job))) && Extends(t, After(t, FinishJob(id, index, job)))
  {
    hide Latest, Find, AttemptsSingle, Chained, OnlyLastOpen, BatchesKnown, Extends;
    var u := After(t, FinishJob(id, index, job));
    SameBatches(t, u);
    SameAttempts(t, u);
    JobExtends(t, u, id, index, job);
    forall other <- t.closings
      ensures Covered(u, other)
    {
      assert Covered(t, other);
      assert forall k <- JobsOf(t, other) :: k in JobsOf(u, other);
    }
  }

  ghost predicate ClosingAdded(t: Tables, u: Tables, id: string, closing: Closing)
  {
    u == t || (id !in t.closings && Covered(t, id) && u == t.(closings := t.closings[id := closing]))
  }

  lemma CloseAdds(t: Tables, id: string, closing: Closing)
    requires JobsKnown(t)
    ensures ClosingAdded(t, After(t, Close(id, closing)), id, closing)
  {
    hide Find, JobsKnown, Covered, JobsOf;
    if Find(t.batches, id).Some? {
      CountCovers(t, id);
    }
  }

  lemma ClosingCovers(t: Tables, u: Tables, id: string, closing: Closing)
    requires ClosingAdded(t, u, id, closing) && ClosedCovered(t)
    ensures ClosedCovered(u) && Extends(t, u)
  {
    hide Find;
    forall other <- u.closings
      ensures Covered(u, other)
    {
      assert Covered(t, other) && JobsOf(u, other) == JobsOf(t, other);
    }
  }

  lemma CloseKeeps(t: Tables, id: string, closing: Closing)
    requires Invariant(t)
    ensures Invariant(After(t, Close(id, closing))) && Extends(t, After(t, Close(id, closing)))
  {
    hide AttemptsSingle, Chained, OnlyLastOpen, BatchesKnown, JobsKnown, ClosedCovered, Covered, Extends, Apply, After;
    var u := After(t, Close(id, closing));
    CloseAdds(t, id, closing);
    SameBatches(t, u);
    SameAttempts(t, u);
    JobsStay(t, u);
    ClosingCovers(t, u, id, closing);
  }

  lemma JobsStay(t: Tables, u: Tables)
    requires JobsKnown(t) && u.jobs == t.jobs && u.batches == t.batches
    ensures JobsKnown(u)
  {}

  /** Every call keeps the invariant and only ever appends rows. */
  lemma {:induction false} ApplyKeeps(t: Tables, c: Call)
    requires Invariant(t)
    ensures Invariant(After(t, c)) && Extends(t, After(t, c))
  {
    match c
    case Reserve(b) =>
      hide Invariant, Rejection, IsToken;
      if Apply(t, c).Ok? { ReserveKeeps(t, b); }
    case Start(_, _) => AttemptKeeps(t, c);
    case Finish(_, _) => AttemptKeeps(t, c);
    case FinishJob(id, index, job) => JobKeeps(t, id, index, job);
    case Close(id, closing) => CloseKeeps(t, id, closing);
  }

  lemma {:induction false} RunKeeps(calls: seq<Call>)
    ensures Invariant(RunOf(Empty, calls))
  {
    hide Apply;
    if calls == [] {
    } else {
      RunKeeps(calls[..|calls| - 1]);
      hide Invariant;
      ApplyKeeps(RunOf(Empty, calls[..|calls| - 1]), calls[|calls| - 1]);
    }
  }

  lemma ExtendsSelf(t: Tables)
    ensures Extends(t, t)
  {}

  lemma ExtendsThrough(s: Tables, t: Tables, u: Tables)
    requires Extends(s, t) && Extends(t, u)
    ensures Extends(s, u)
  {}

  /** Nothing recorded at some point of a run is missing or different later. */
  lemma {:induction false} RecordsStay(calls: seq<Call>, k: nat)
    requires k <= |calls|
    ensures Extends(RunOf(Empty, calls[..k]), RunOf(Empty, calls))
  {
    hide Extends, Apply, After;
    if k == |calls| {
      assert calls[..k] == calls;
      ExtendsSelf(RunOf(Empty, calls));
    } else {
      var front := calls[..|calls| - 1];
      assert front[..k] == calls[..k];
      RecordsStay(front, k);
      RunKeeps(front);
      ApplyKeeps(RunOf(Empty, front), calls[|calls| - 1]);
      ExtendsThrough(RunOf(Empty, calls[..k]), RunOf(Empty, front), RunOf(Empty, calls));
    }
  }

  // ----- what the invariant means for every run

  predicate SameStudy(a: Batch, b: Batch) { a.family == b.family && a.generation == b.generation }

  /** At most one batch is unfinished, and it is the latest. */
  lemma {:induction false} OneUnfinished(calls: seq<Call>, i: nat)
    requires i < |RunOf(Empty, calls).batches| && RunOf(Empty, calls).batches[i].id !in RunOf(Empty, calls).closings
    ensures i == |RunOf(Empty, calls).batches| - 1
  {
    RunKeeps(calls);
  }

  /** Along the batches of one family and generation: one plan, one identity
      list, and every batch but the latest failed or aborted. */
  lemma {:induction false} ChainBack(t: Tables, i: nat, j: nat)
    requires BatchesKnown(t) && Chained(t) && i < j < |t.batches| && SameStudy(t.batches[i], t.batches[j])
    ensures t.batches[i].plan == t.batches[j].plan
    ensures Identities(t.batches[i].inventory) == Identities(t.batches[j].inventory)
    ensures t.batches[i].id in t.closings && t.closings[t.batches[i].id].outcome != Completed
    ensures t.batches[j].retryOf.Some?
    decreases j
  {
    hide Identities, Latest;
    var b := t.batches[j];
    assert Linked(t, j);
    LatestMatches(t.batches[..j], b.family, b.generation, b.phase);
    assert t.batches[..j][i] == t.batches[i];
    var prior := Latest(t.batches[..j], b.family, b.generation, b.phase);
    assert t.batches[..j][prior.value] == t.batches[prior.value];
    if prior.value > i {
      ChainBack(t, i, prior.value);
    }
  }

  /** One retry chain per family and generation, of which at most one batch ever completes. */
  lemma RetryChain(calls: seq<Call>, i: nat, j: nat)
    requires var t := RunOf(Empty, calls); i < j < |t.batches| && SameStudy(t.batches[i], t.batches[j])
    ensures var t := RunOf(Empty, calls);
      && t.batches[i].plan == t.batches[j].plan
      && Identities(t.batches[i].inventory) == Identities(t.batches[j].inventory)
      && t.batches[i].id in t.closings && t.closings[t.batches[i].id].outcome in {Failed, Aborted}
      && (exists p :: i <= p < j && SameStudy(t.batches[p], t.batches[j]) && t.batches[j].retryOf == Some(t.batches[p].id)
            && forall q :: p < q < j ==> !SameStudy(t.batches[q], t.batches[j]))
  {
    hide Identities, Latest, RunOf;
    var t := RunOf(Empty, calls);
    RunKeeps(calls);
    ChainBack(t, i, j);
    var b := t.batches[j];
    assert Linked(t, j);
    LatestMatches(t.batches[..j], b.family, b.generation, b.phase);
    var p := Latest(t.batches[..j], b.family, b.generation, b.phase).value;
    assert t.batches[..j][i] == t.batches[i];
    forall q | 0 <= q < j
      ensures t.batches[..j][q] == t.batches[q]
    {}
    assert i <= p < j && SameStudy(t.batches[p], t.batches[j]);
  }

  /** A batch is closed only when every index of its inventory has an outcome;
      and the count comparison that guards closing accepts exactly then. */
  lemma ClosedMeansCovered(calls: seq<Call>, id: string)
    requires id in RunOf(Empty, calls).closings
    ensures Covered(RunOf(Empty, calls), id)
  {
    RunKeeps(calls);
  }

  lemma ClosesExactlyWhenCovered(calls: seq<Call>, id: string, closing: Closing)
    requires id !in RunOf(Empty, calls).closings
    ensures Apply(RunOf(Empty, calls), Close(id, closing)).Ok? <==> Covered(RunOf(Empty, calls), id)
  {
    var t := RunOf(Empty, calls);
    RunKeeps(calls);
    hide RunOf, Find;
    if Find(t.batches, id).Some? {
      CountCovers(t, id);
    }
  }

  /** In every run: no version has two open attempts, no identity is validated
      twice, no version is opened twice for its untouched data, and every
      verdict belongs to an attempt that started no later. */
  lemma {:induction false} AttemptsAdmittedOnce(calls: seq<Call>)
    ensures AttemptsSingle(RunOf(Empty, calls))
  {
    RunKeeps(calls);
  }

  // ----- the registry itself

  class TrialRegistry {
    var attempts: map<string, Attempt>
    var verdicts: map<string, Verdict>
    var requests: map<string, Request>
    var batches: seq<Batch>
    var jobs: map<string, map<int, Record>>
    var closings: map<string, Closing>

    ghost function View(): Tables
      reads this
    {
      Tables(attempts, verdicts, requests, batches, jobs, closings)
    }

    ghost predicate Valid()
      reads this
    {
      Invariant(View())
    }

    constructor ()
      ensures Valid() && View() == Empty
    {
      attempts, verdicts, requests, batches, jobs, closings := map[], map[], map[], [], map[], map[];
    }

    method ReserveBatch(b: Batch) returns (r: Result<Option<Reason>>)
      requires Valid()
      modifies this
      ensures Valid() && View() == After(old(View()), Reserve(b)) && Extends(old(View()), View())
      ensures match r
        case Err(fault) => Apply(old(View()), Reserve(b)) == Err(fault)
        case Ok(reason) => Apply(old(View()), Reserve(b)).Ok? && (reason.None? <==> View().batches == old(View()).batches + [b])
                           && View().requests[b.id].reason == reason
    {
      hide Invariant, IsToken, IsDigest, Rejection, Extends;
      ApplyKeeps(View(), Reserve(b));
      if !IsToken(b.id) || !IsToken(b.family) || !IsToken(b.generation) || !IsDigest(b.plan) {
        return Err(InvalidIdentity);
      }
      if b.inventory == [] {
        return Err(EmptyInventory);
      }
      var reason := Screen(b);
      if b.id in requests {
        return Err(RequestExists);
      }
      requests := requests[b.id := Request(b.plan, b.started, reason)];
      if reason.None? {
        batches := batches + [b];
      }
      return Ok(reason);
    }

    /** The checks of an admission, in the program's order: a later one overrides an earlier one. */
    method Screen(b: Batch) returns (reason: Option<Reason>)
      ensures reason == Rejection(View(), b)
    {
      hide Identities, Unfinished, Latest;
      reason := None;
      if b.phase != Development {
        reason := Some(PhaseNotEnabled);
      }
      var prior := Latest(batches, b.family, b.generation, b.phase);
      LatestMatches(batches, b.family, b.generation, b.phase);
      if prior.Some? {
        var p := batches[prior.value];
        if b.retryOf != Some(p.id) || p.id !in closings || closings[p.id].outcome !in {Aborted, Failed} || p.plan != b.plan {
          reason := Some(AlreadyReserved);
        } else if Identities(p.inventory) != Identities(b.inventory) {
          reason := Some(RetryIdentityChanged);
        }
      } else if b.retryOf.Some? {
        reason := Some(InvalidRetryParent);
      }
      if Unfinished(batches, closings) {
        reason := Some(UnfinishedBatch);
      }
    }

    /** False for an identical replay. */
    method StartAttempt(attempt: string, terms: Attempt) returns (r: Result<bool>)
      requires Valid()
      modifies this
      ensures Valid() && View() == After(old(View()), Start(attempt, terms)) && Extends(old(View()), View())
      ensures match r
        case Err(fault) => Apply(old(View()), Start(attempt, terms)) == Err(fault)
        case Ok(added) => Apply(old(View()), Start(attempt, terms)).Ok? && (added <==> attempt !in old(attempts))
    {
      hide Invariant, IsToken, Rejection, VersionOpen, ShaValidated, VersionUntouched, Extends;
      ApplyKeeps(View(), Start(attempt, terms));
      if !IsToken(attempt) {
        return Err(InvalidIdentity);
      }
      if attempt in attempts {
        if attempts[attempt] != terms {
          return Err(DifferentTerms);
        }
        return Ok(false);
      }
      if VersionOpen(attempts, verdicts, terms.identity) {
        return Err(AttemptUnfinished);
      }
      if terms.phase == Validation && ShaValidated(attempts, terms.identity) {
        return Err(ValidationOpened);
      }
      if terms.phase == Untouched && VersionUntouched(attempts, terms.identity) {
        return Err(UntouchedOpened);
      }
      attempts := attempts[attempt := terms];
      return Ok(true);
    }

    /** Check the identity document, then take the transaction. */
    method CheckAndStart(attempt: string, document: I.Document, digest: I.Body -> string, phase: Phase, started: int)
        returns (r: Result<bool>)
      requires Valid()
      modifies this
      ensures Valid() && Extends(old(View()), View())
      ensures match I.Checked(document, digest)
        case None => r == Err(InvalidIdentity) && View() == old(View())
        case Some(identity) =>
          var call := Call.Start(attempt, Attempt(identity, phase, started));
          && View() == After(old(View()), call)
          && match r
             case Err(fault) => Apply(old(View()), call) == Err(fault)
             case Ok(added) => Apply(old(View()), call).Ok? && (added <==> attempt !in old(attempts))
    {
      hide Invariant, Apply, After, Extends, I.Checked, IsToken;
      ExtendsSelf(View());
      var checked := I.Checked(document, digest);
      if checked.None? {
        return Err(InvalidIdentity);
      }
      r := StartAttempt(attempt, Attempt(checked.value, phase, started));
    }

    method FinishAttempt(attempt: string, verdict: Verdict) returns (r: Result<bool>)
      requires Valid()
      modifies this
      ensures Valid() && View() == After(old(View()), Finish(attempt, verdict)) && Extends(old(View()), View())
      ensures match r
        case Err(fault) => Apply(old(View()), Finish(attempt, verdict)) == Err(fault)
        case Ok(added) => Apply(old(View()), Finish(attempt, verdict)).Ok? && (added <==> attempt !in old(verdicts))
    {
      hide Invariant, IsToken, Rejection, VersionOpen, ShaValidated, VersionUntouched, Extends;
      ApplyKeeps(View(), Finish(attempt, verdict));
      if verdict.reason.Some? && !IsToken(verdict.reason.value) {
        return Err(InvalidIdentity);
      }
      if attempt !in attempts {
        return Err(UnknownAttempt);
      }
      if verdict.finished < attempts[attempt].started {
        return Err(FinishedBeforeStart);
      }
      if attempt in verdicts {
        if verdicts[attempt] != verdict {
          return Err(VerdictDiffers);
        }
        return Ok(false);
      }
      verdicts := verdicts[attempt := verdict];
      return Ok(true);
    }

    method RecordJob(id: string, index: int, job: Record) returns (r: Result<bool>)
      requires Valid()
      modifies this
      ensures Valid() && View() == After(old(View()), FinishJob(id, index, job)) && Extends(old(View()), View())
      ensures r.Ok? <==> Apply(old(View()), FinishJob(id, index, job)).Ok?
      ensures r.Err? ==> Apply(old(View()), FinishJob(id, index, job)) == Err(r.fault)
      ensures r.Ok? ==> (r.value <==> !(id in old(jobs) && index in old(jobs)[id]))
    {
      hide Invariant, Find, Rejection, Extends;
      ApplyKeeps(View(), FinishJob(id, index, job));
      var batch := Find(batches, id);
      if batch.None? || !(0 <= index < |batch.value.inventory|) {
        return Err(UnknownJob);
      }
      var mine := if id in jobs then jobs[id] else map[];
      if index in mine {
        if mine[index] != job {
          return Err(JobDiffers);
        }
        return Ok(false);
      }
      jobs := jobs[id := mine[index := job]];
      return Ok(true);
    }

    method CloseBatch(id: string, closing: Closing) returns (r: Result<bool>)
      requires Valid()
      modifies this
      ensures Valid() && View() == After(old(View()), Close(id, closing)) && Extends(old(View()), View())
      ensures r.Ok? <==> Apply(old(View()), Close(id, closing)).Ok?
      ensures r.Err? ==> Apply(old(View()), Close(id, closing)) == Err(r.fault)
      ensures r.Ok? ==> (r.value <==> id !in old(closings))
    {
      hide Invariant, Find, Rejection, Extends;
      ApplyKeeps(View(), Close(id, closing));
      var batch := Find(batches, id);
      var count := if id in jobs then |jobs[id]| else 0;
      if batch.None? || count != |batch.value.inventory| {
        return Err(IncompleteInventory);
      }
      if id in closings {
        if closings[id].outcome != closing.outcome || closings[id].artifact != closing.artifact {
          return Err(ClosingDiffers);
        }
        return Ok(false);
      }
      closings := closings[id := closing];
      return Ok(true);
    }

    /** Any call, whatever it comes to. */
    method Take(c: Call)
      requires Valid()
      modifies this
      ensures Valid() && View() == After(old(View()), c) && Extends(old(View()), View())
    {
      hide Invariant, Apply, After, Extends;
      match c {
        case Reserve(b) => var _ := ReserveBatch(b);
        case Start(attempt, terms) => var _ := StartAttempt(attempt, terms);
        case Finish(attempt, verdict) => var _ := FinishAttempt(attempt, verdict);
        case FinishJob(id, index, job) => var _ := RecordJob(id, index, job);
        case Close(id, closing) => var _ := CloseBatch(id, closing);
      }
    }

    /** `None` for an unknown attempt, `Some(None)` for an open one. */
    method Status(attempt: string) returns (r: Option<Option<Outcome>>)
      ensures r.None? <==> attempt !in attempts
      ensures r.Some? && r.value.None? <==> Open(View(), attempt)
      ensures attempt in attempts && attempt in verdicts ==> r == Some(Some(verdicts[attempt].outcome))
    {
      if attempt !in attempts {
        return None;
      }
      return Some(if attempt in verdicts then Some(verdicts[attempt].outcome) else None);
    }

    /** The stored batch, its recorded outcomes, its closing, and what is known of
        each of its attempts: nothing, that it is open, or its outcome. */
    method GetBatch(id: string) returns (r: Option<(Batch, map<int, Record>, Option<Closing>, map<string, Option<Outcome>>)>)
      ensures r.None? <==> Find(batches, id).None?
      ensures r.Some? ==>
        && Find(batches, id) == Some(r.value.0) && r.value.1 == JobsOf(View(), id)
        && (r.value.2.Some? <==> id in closings) && (id in closings ==> r.value.2.value == closings[id])
      ensures r.Some? ==> forall a ::
        && (a in r.value.3 <==> a in attempts && exists item <- r.value.0.inventory :: item.attempt == Some(a))
        && (a in r.value.3 && r.value.3[a].None? <==> a in r.value.3 && Open(View(), a))
        && (a in r.value.3 && r.value.3[a].Some? ==> a in verdicts && r.value.3[a].value == verdicts[a].outcome)
    {
      hide Find;
      var batch := Find(batches, id);
      if batch.None? {
        return None;
      }
      var statuses := map a <- attempts | (exists item <- batch.value.inventory :: item.attempt == Some(a)) :: if a in verdicts then Some(verdicts[a].outcome) else None;
      return Some((batch.value, if id in jobs then jobs[id] else map[], if id in closings then Some(closings[id]) else None, statuses));
    }
  }
}
