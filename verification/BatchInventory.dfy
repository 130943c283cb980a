/** From the jobs of a plan to the inventory a batch reserves: screening,
    deduplication by configuration, and the naming of attempts. */
module BatchInventory {
  import opened Exact
  import opened Numerals
  import opened BatchRecords
  import opened Registry
  import opened BatchState

  /** What screening one job came to: a refusal, or its configuration key. */
  datatype Screening = Refused(unsupported: bool, reason: string) | Keyed(key: string)
  datatype Job = Job(kind: JobKind, screening: Screening)

  /** What the package validator makes of a package and its record: its warmup, or the exception it raises. */
  datatype Validation = Valid(warmup: int) | NotSupported(reason: string) | Raised(exception: string)
  datatype Source = Source(damaged: bool, validation: Validation, rule: string, requirements: string)

  datatype Benchmark = NoBenchmark | Cash | Passive | OtherBenchmark

  /** A job as the plan lists it; `exact` tells whether it has exactly the four fields. */
  datatype PlanJob = NotObject | PlanJob(exact: bool, package: string, market: string, cost: string, benchmark: Benchmark)

  datatype Plan = Plan(markets: seq<string>, costs: set<string>, allocation: string, packages: map<string, Source>, warmups: map<string, int>)

  /** What a job computes: the rule of its package, or its benchmark whatever the package, in its market and at its cost. */
  datatype Configuration =
    | Strategy(rule: string, requirements: string, market: string, cost: string)
    | Compared(benchmark: Benchmark, allocation: string, market: string, cost: string)

  function ConfigurationOf(job: PlanJob, source: Source, plan: Plan): Configuration
    requires job.PlanJob?
  {
    if job.benchmark == NoBenchmark then Strategy(source.rule, source.requirements, job.market, job.cost)
    else Compared(job.benchmark, plan.allocation, job.market, job.cost)
  }

  /** The checks of one job in the program's order; `digest` is the hash of a configuration. */
  function Screen(job: PlanJob, plan: Plan, digest: Configuration -> string): Screening
  {
    if job.NotObject? || !job.exact then Refused(false, "ValueError")
    else if job.market !in plan.markets || job.cost !in plan.costs then Refused(false, "ValueError")
    else if job.benchmark == OtherBenchmark then Refused(true, "unsupported_benchmark")
    else if job.package !in plan.packages then Refused(false, "KeyError")
    else
      var source := plan.packages[job.package];
      if source.damaged then Refused(false, "ValueError")
      else
        match source.validation
        case NotSupported(reason) => Refused(true, reason)
        case Raised(exception) => Refused(false, exception)
        case Valid(warmup) =>
          if job.market !in plan.warmups then Refused(false, "KeyError")
          else if warmup > plan.warmups[job.market] then Refused(true, "insufficient_declared_warmup")
          else Keyed(digest(ConfigurationOf(job, source, plan)))
  }

  function KindOf(job: PlanJob): JobKind
  {
    if job.NotObject? then Malformed else if job.benchmark == NoBenchmark then StrategyJob else BenchmarkJob
  }

  function Screened(jobs: seq<PlanJob>, plan: Plan, digest: Configuration -> string): (r: seq<Job>)
    ensures |r| == |jobs|
  {
    seq(|jobs|, i requires 0 <= i < |jobs| => Job(KindOf(jobs[i]), Screen(jobs[i], plan, digest)))
  }

  /** A known package whose bytes are as recorded and whose rule the validator accepts. */
  ghost predicate Sound(job: PlanJob, plan: Plan)
  {
    && job.PlanJob? && job.package in plan.packages && !plan.packages[job.package].damaged && plan.packages[job.package].validation.Valid?
  }

  ghost predicate Requested(job: PlanJob, plan: Plan)
  {
    job.PlanJob? && job.exact && job.market in plan.markets && job.cost in plan.costs
  }

  /** A job is keyed exactly when all of it is known and its warmup is covered;
      its key is the digest of its rule, or of its benchmark; and it is called
      unsupported, not invalid, exactly for another benchmark, a rule the
      validator does not support, or a warmup that is not covered. */
  lemma ScreenedExactly(job: PlanJob, plan: Plan, digest: Configuration -> string)
    ensures Screen(job, plan, digest).Keyed? <==>
      && Requested(job, plan) && job.benchmark != OtherBenchmark && Sound(job, plan)
      && job.market in plan.warmups && plan.packages[job.package].validation.warmup <= plan.warmups[job.market]
    ensures Screen(job, plan, digest).Keyed? ==>
      var source := plan.packages[job.package];
      Screen(job, plan, digest).key == digest(
        if job.benchmark == NoBenchmark then Strategy(source.rule, source.requirements, job.market, job.cost)
        else Compared(job.benchmark, plan.allocation, job.market, job.cost))
    ensures Screen(job, plan, digest).Refused? ==>
      (Screen(job, plan, digest).unsupported <==>
         && Requested(job, plan)
         && (|| job.benchmark == OtherBenchmark
             || (job.package in plan.packages && !plan.packages[job.package].damaged && plan.packages[job.package].validation.NotSupported?)
             || (Sound(job, plan) && job.market in plan.warmups && plan.packages[job.package].validation.warmup > plan.warmups[job.market])))
    ensures KindOf(job) == Malformed <==> job.NotObject?
    ensures KindOf(job) == StrategyJob <==> job.PlanJob? && job.benchmark == NoBenchmark
  {}

  /** The screening as the program runs it. */
  method ScreenJob(job: PlanJob, plan: Plan, digest: Configuration -> string) returns (r: Screening)
    ensures r == Screen(job, plan, digest)
  {
    if job.NotObject? || !job.exact || job.market !in plan.markets || job.cost !in plan.costs {
      return Refused(false, "ValueError");
    }
    if job.benchmark !in {NoBenchmark, Cash, Passive} {
      return Refused(true, "unsupported_benchmark");
    }
    if job.package !in plan.packages {
      return Refused(false, "KeyError");
    }
    var source := plan.packages[job.package];
    if source.damaged {
      return Refused(false, "ValueError");
    }
    match source.validation {
      case NotSupported(reason) => return Refused(true, reason);
      case Raised(exception) => return Refused(false, exception);
      case Valid(warmup) =>
        if job.market !in plan.warmups {
          return Refused(false, "KeyError");
        }
        if plan.warmups[job.market] < warmup {
          return Refused(true, "insufficient_declared_warmup");
        }
        var configuration := Strategy(source.rule, source.requirements, job.market, job.cost);
        if job.benchmark != NoBenchmark {
          configuration := Compared(job.benchmark, plan.allocation, job.market, job.cost);
        }
        return Keyed(digest(configuration));
    }
  }

  ghost predicate CollisionFree(digest: Configuration -> string) { forall a, b :: digest(a) == digest(b) ==> a == b }

  /** The first job with a configuration key. */
  function FirstWith(jobs: seq<Job>, key: string): Option<nat>
  {
    if jobs == [] then None
    else
      var before := FirstWith(jobs[..|jobs| - 1], key);
      if before.Some? then before
      else if jobs[|jobs| - 1].screening == Keyed(key) then Some(|jobs| - 1) else None
  }

  lemma {:induction false} FirstIsFirst(jobs: seq<Job>, key: string)
    ensures var f := FirstWith(jobs, key);
      if f.Some? then
        && f.value < |jobs| && jobs[f.value].screening == Keyed(key)
        && forall k :: 0 <= k < f.value ==> jobs[k].screening != Keyed(key)
      else forall k :: 0 <= k < |jobs| ==> jobs[k].screening != Keyed(key)
  {
    if jobs != [] {
      FirstIsFirst(jobs[..|jobs| - 1], key);
    }
  }

  lemma {:induction false} FirstStays(jobs: seq<Job>, n: nat, key: string)
    requires n <= |jobs| && FirstWith(jobs[..n], key).Some?
    ensures FirstWith(jobs, key) == FirstWith(jobs[..n], key)
  {
    if n == |jobs| {
      assert jobs[..n] == jobs;
    } else {
      assert jobs[..|jobs| - 1][..n] == jobs[..n];
      FirstStays(jobs[..|jobs| - 1], n, key);
    }
  }

  /** The inventory item of a job, by what the whole plan holds. */
  function ItemOf(jobs: seq<Job>, i: nat): Item
    requires i < |jobs|
  {
    match jobs[i].screening
    case Refused(unsupported, reason) =>
      Item(i, jobs[i].kind, if unsupported then Unsupported else Invalid, Some(reason), None, None, None, None)
    case Keyed(key) =>
      if FirstWith(jobs, key) == Some(i) then Item(i, jobs[i].kind, Admitted, None, Some(key), None, None, None)
      else Item(i, jobs[i].kind, Duplicate, Some("duplicate_configuration"), Some(key), FirstWith(jobs, key), None, None)
  }

  /** Every job is accounted for; of each configuration exactly the first job is admitted and the others point to it. */
  method PrepareJobs(listed: seq<PlanJob>, plan: Plan, digest: Configuration -> string) returns (inventory: seq<Item>)
    ensures |inventory| == |listed|
    ensures forall i: nat :: i < |listed| ==> inventory[i] == ItemOf(Screened(listed, plan, digest), i)
  {
    hide Screen;
    ghost var jobs := Screened(listed, plan, digest);
    inventory := [];
    var seen: map<string, nat> := map[];
    for i := 0 to |listed|
      invariant |inventory| == i
      invariant forall k: nat :: k < i ==> inventory[k] == ItemOf(jobs, k)
      invariant forall key :: FirstWith(jobs[..i], key) == if key in seen then Some(seen[key]) else None
    {
      assert jobs[..i + 1][..i] == jobs[..i];
      var item := Item(i, KindOf(listed[i]), Admitted, None, None, None, None, None);
      var screened := ScreenJob(listed[i], plan, digest);
      match screened {
        case Refused(unsupported, reason) =>
          item := item.(status := if unsupported then Unsupported else Invalid, reason := Some(reason));
        case Keyed(key) =>
          FirstStays(jobs, i + 1, key);
          item := item.(key := Some(key));
          if key in seen {
            FirstIsFirst(jobs[..i], key);
            item := item.(status := Duplicate, reason := Some("duplicate_configuration"), duplicateOf := Some(seen[key]));
          } else {
            seen := seen[key := i];
          }
      }
      inventory := inventory + [item];
    }
  }

  /** Unless two configurations collide under the digest, every configuration a
      job passes screening with is admitted exactly once, as its first job, and
      every other job with it points to that one. */
  lemma ConfigurationsOnce(listed: seq<PlanJob>, plan: Plan, digest: Configuration -> string, i: nat) returns (first: nat)
    requires CollisionFree(digest) && i < |listed| && Screen(listed[i], plan, digest).Keyed?
    ensures var jobs := Screened(listed, plan, digest);
      && first <= i && ItemOf(jobs, first).status == Admitted && SameConfiguration(listed, plan, first, i)
      && (i != first ==> ItemOf(jobs, i).status == Duplicate && ItemOf(jobs, i).duplicateOf == Some(first))
      && forall k: nat :: k < |listed| && ItemOf(jobs, k).status == Admitted && SameConfiguration(listed, plan, k, i) ==> k == first
  {
    var jobs := Screened(listed, plan, digest);
    AdmittedOnce(jobs, i);
    first := FirstWith(jobs, jobs[i].screening.key).value;
    FirstIsFirst(jobs, jobs[i].screening.key);
    SameKeys(listed, plan, digest, first, i);
    forall k: nat | k < |listed| && ItemOf(jobs, k).status == Admitted && SameConfiguration(listed, plan, k, i)
      ensures k == first
    {
      SameKeys(listed, plan, digest, k, i);
    }
  }

  /** Both jobs name a known package and come to one configuration. */
  predicate SameConfiguration(listed: seq<PlanJob>, plan: Plan, i: nat, j: nat)
  {
    && i < |listed| && j < |listed| && listed[i].PlanJob? && listed[j].PlanJob?
    && listed[i].package in plan.packages && listed[j].package in plan.packages
    && ConfigurationOf(listed[i], plan.packages[listed[i].package], plan) == ConfigurationOf(listed[j], plan.packages[listed[j].package], plan)
  }

  lemma SameKeys(listed: seq<PlanJob>, plan: Plan, digest: Configuration -> string, i: nat, j: nat)
    requires CollisionFree(digest) && i < |listed| && j < |listed|
    requires Screen(listed[i], plan, digest).Keyed? && Screen(listed[j], plan, digest).Keyed?
    ensures Screen(listed[i], plan, digest) == Screen(listed[j], plan, digest) <==> SameConfiguration(listed, plan, i, j)
  {}

  /** No two admitted jobs share a configuration, and every key is admitted once. */
  lemma AdmittedOnce(jobs: seq<Job>, i: nat)
    requires i < |jobs| && jobs[i].screening.Keyed?
    ensures var f := FirstWith(jobs, jobs[i].screening.key);
      && f.Some? && f.value <= i && ItemOf(jobs, f.value).status == Admitted && ItemOf(jobs, f.value).key == ItemOf(jobs, i).key
      && forall k: nat :: k < |jobs| && ItemOf(jobs, k).status == Admitted && ItemOf(jobs, k).key == ItemOf(jobs, i).key ==> k == f.value
  {
    FirstIsFirst(jobs, jobs[i].screening.key);
  }

  // ----- naming attempts

  function AttemptName(batch: string, index: nat): string { batch + "." + Digits(index) }

  lemma AttemptNames(batch: string, m: nat, n: nat)
    requires IsToken(batch)
    ensures IsToken(AttemptName(batch, m))
    ensures AttemptName(batch, m) == AttemptName(batch, n) ==> m == n
  {
    hide IsToken, Digits, Natural, AttemptName;
    NameIsToken(batch, m);
    NameDigits(batch, m);
    NameDigits(batch, n);
    NaturalOfDigits(m);
    NaturalOfDigits(n);
  }

  lemma NameIsToken(batch: string, index: nat)
    requires IsToken(batch)
    ensures IsToken(AttemptName(batch, index))
  {
    hide Digits;
    var name := AttemptName(batch, index);
    forall i | 1 <= i < |name|
      ensures Alphanumeric(name[i]) || name[i] in "._:-"
    {
      if i < |batch| {
        assert name[i] == batch[i];
      } else if i > |batch| {
        assert name[i] == Digits(index)[i - |batch| - 1];
      }
    }
  }

  lemma NameDigits(batch: string, index: nat)
    ensures |AttemptName(batch, index)| > |batch| && AttemptName(batch, index)[|batch| + 1..] == Digits(index)
  {
    hide Digits;
  }

  function Named(item: Item, batch: string, family: string, generation: string, sha: string): Item
  {
    if item.status != Admitted || item.key.None? then item
    else item.(attempt := Some(AttemptName(batch, item.index)),
               identity := Some(Identity(sha, family + "." + item.key.value, generation)))
  }

  /** Give every admitted item an attempt name of its own and an identity whose
      strategy carries its configuration key, so that no two attempts of the
      batch can stand in each other's way. */
  method NameAttempts(jobs: seq<Job>, prepared: seq<Item>, batch: string, family: string, generation: string, shas: seq<string>)
      returns (inventory: seq<Item>)
    requires jobs != [] && |prepared| == |jobs| == |shas| && IsToken(batch)
    requires forall i: nat :: i < |jobs| ==> prepared[i] == ItemOf(jobs, i)
    ensures WellFormed(inventory) && |inventory| == |jobs|
    ensures forall i: nat :: i < |jobs| ==> inventory[i] == Named(ItemOf(jobs, i), batch, family, generation, shas[i])
  {
    hide AttemptName, IsToken;
    inventory := [];
    for i := 0 to |prepared|
      invariant |inventory| == i
      invariant forall k: nat :: k < i ==> inventory[k] == Named(ItemOf(jobs, k), batch, family, generation, shas[k])
    {
      var item := prepared[i];
      if item.status == Admitted && item.key.Some? {
        item := item.(attempt := Some(AttemptName(batch, item.index)),
                      identity := Some(Identity(shas[i], family + "." + item.key.value, generation)));
      }
      inventory := inventory + [item];
    }
    NamesApart(jobs, inventory, batch, family, generation, shas);
  }

  lemma NamesApart(jobs: seq<Job>, inventory: seq<Item>, batch: string, family: string, generation: string, shas: seq<string>)
    requires jobs != [] && |inventory| == |jobs| == |shas| && IsToken(batch)
    requires forall i: nat :: i < |jobs| ==> inventory[i] == Named(ItemOf(jobs, i), batch, family, generation, shas[i])
    ensures WellFormed(inventory)
  {
    hide AttemptName, IsToken;
    forall i: nat | i < |inventory|
      ensures inventory[i].attempt.Some? ==> IsToken(inventory[i].attempt.value)
      ensures inventory[i].attempt.Some? ==> jobs[i].screening.Keyed? && FirstWith(jobs, jobs[i].screening.key) == Some(i)
    {
      AttemptNames(batch, i, i);
    }
    forall i: nat, j: nat | i < j < |inventory| && inventory[i].attempt.Some? && inventory[j].attempt.Some?
      ensures inventory[i].attempt != inventory[j].attempt
      ensures !SameVersion(inventory[i].identity.value, inventory[j].identity.value)
    {
      AttemptNames(batch, i, j);
      var a, b := jobs[i].screening.key, jobs[j].screening.key;
      assert (family + "." + a)[|family + "."|..] == a && (family + "." + b)[|family + "."|..] == b;
    }
  }
}
