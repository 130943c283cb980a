# TideLab core models

This project models the parts of TideLab, a systematic-trading research
platform, that carry state or arithmetic: the trial registry and the batch
protocol that must survive crashes, the H1 research replay with its independent
review, the paper-order authority shared by many processes, commit-then-deliver
execution, the replay of normalized packages with its rule language and
indicators, two fixed studies, and the compiler of the imported script subset.
It proves what each of them promises over all inputs, runs or interleavings.

`dafny verify dfyconfig.toml` checks everything.

| files | part |
|---|---|
| Exact, Outcomes, Drawdown, Numerals, Characters | exact decimal arithmetic, the result of a procedure that may throw, running-peak statistics, decimal numerals, the characters of names |
| H1Policy, H1Replay, H1Accounting, H1Review | the H1 policy, replay, metrics and review, each a class or loops proved against functions |
| H1Safety, H1Acceptance | what every run keeps; that the review accepts every run |
| H1Results, H1Records, H1ReviewMeaning | what a run, its metric records and an accepted result show, in plain arithmetic |
| ExperimentIdentity, Registry, BatchState, ForeignCalls, BatchMeaning, HistoricalBatch, BatchInventory | the identity of an attempt, the registry tables and calls, the state of one batch, what a finished batch shows, what other processes do beside it, the run and recovery, and the inventory |
| PaperAuthority, PaperInvariant, PaperTheorems, PaperStore | the nine transactions as steps, their invariant, theorems over every run, and the store with one method per transaction |
| Delivery | commit-then-deliver with losses and deaths |
| Indicators, Expression, PackageReplay, PackageMetrics, PackageTheorems, ExpressionMeaning, PackageResults | the package evaluator |
| LowVol, LowVolLedger, LowVolTheorems, LowVolPassive, LowVolResults | the low-volatility study |
| Candidate, CandidateTheorems, CandidateResults | the candidate screen |
| PineLexer, PineSubset, PineCanonical, PineMeaning | the script subset |

How the program is read:

- Decimals are exact reals; rounding to eight decimals is written out. The
  review's tolerance of 1e-20 is taken as zero, which makes acceptance stricter.
- Times are whole hours, or any integers where only their order matters.
- A SHA-256 digest is modelled by the value it is taken of, so equal digests
  mean equal contents; for identity documents and configuration keys it is a
  function parameter, and a theorem that needs it says that nothing collides.
- Each database transaction, atomic file write and atomic publication is one
  step. A process may die before any of them: `fuel` counts the steps it still
  takes. A lock is held by at most one of run and recovery of a batch; before
  each of its steps other processes may take any calls on the registry about
  other batches and attempts (`others`).
- Exceptions are `Thrown`, `Err`, `Refused` or `None` values; unreachable ones
  are kept in the methods and proved not to happen.
- Predicates that end in `Told` spell out, in plain arithmetic on returned
  fields, tape entries and input bars, what a result shows; they use none of the
  functions by which the model computes it, lookups and the rule evaluator aside.
- Fields such as `values`, `log` or a ghost history that the program does not
  store are kept in specification states so that theorems can speak about them.

Six findings that are not promised anywhere:

- `TideLabExecutionDeliveryProbe.cs:69-109`: once the broker has reported two
  executions more than the engine has, no call ever delivers again, because
  only the last reported execution may be brought and its predecessor state is
  not the engine's. `Delivery.Venue.Reconcile` states exactly when an
  undisturbed call delivers, `Delivery.ReconcileAll` that no sequence of calls
  leaves such a state, and `Delivery.TwoAhead` how two appended executions reach it.
- `TideLabExecutionLedgerProbe.cs:191-194`: after a death between writing a
  ledger replacement and moving it, no call ever commits again, so nothing more
  is delivered than the ledger then held. `Delivery.ReconcileAll` states it and
  `Delivery.LeftOver` gives the death.
- `paper_intent.py:157-168`: a handoff always leaves an unresolved successor,
  so after the first intent of a store the plain preparation can never insert
  another; `PaperInvariant.PrepareKeeps` states it.
- `synthetic_paper.py:73-99`: the adoption looks only at the synthetic orders,
  so an intent that already has an accepted broker report, even a resolved one,
  can be rearmed, claimed and submitted again. `PaperTheorems.ReclaimedExactly`
  states exactly when, only the first intent of a store can be concerned, and
  `PaperTheorems.ReclaimReached` gives the run.
- `paper_intent.py:120-122`: opening a store guards a first intent whose source
  names a report, but the guard asks for the resolved parent of that report, which a
  first intent never has. Such an intent is never claimed, and because it stays
  unresolved the store never prepares another: `PaperTheorems.StuckForever`.
- `h1_trial_review.py:215-222`: the review asks for a fill after every proposal,
  but not for a proposal before every fill. `H1ReviewMeaning.UnaskedAccepted`
  gives an accepted result whose entry no decision called for; the replay of its
  bars does not return it. `H1ReviewMeaning.AcceptedIsTold` states all that acceptance does guarantee.

## Model

| member | source | states |
|---|---|---|
| H1Acceptance.ReviewAcceptsRun | src/tidelab/h1_trial_review.py:90-231 | Every result the engine replay returns, with the metrics the engine computes for it, passes every check of the independent review: fill prices, fees, quantities, marks rebuilt from fills, slice means, peak and halt, intents, following-open fills, and all four metric records |
| H1Acceptance.RunAnalyzeReview | scripts/lean_fallback/TideLabH1V1ResearchReplay.cs:27-99 | For any bars, partition and costs: whenever replay and analysis both return, running the review on what they returned accepts it |
| H1Acceptance.AnalysisFailsOnlyForBenchmarks | scripts/lean_fallback/TideLabH1V1TrialAccounting.cs:86-113 | The engine's metrics of a replay result fail exactly when one of the two hold benchmarks cannot buy one unit |
| H1Acceptance.BenchmarksAgree | src/tidelab/h1_trial_review.py:69-87 | The engine's and the review's benchmark, computed in different forms, fail on the same inputs and otherwise return the same metrics |
| H1Acceptance.MeansAgree | src/tidelab/h1_trial_review.py:197-197 | The running queue mean equals the mean of the slice of 168 closes |
| H1Acceptance.DecisionsAgree | src/tidelab/h1_trial_review.py:194-214 | The policy's intent, risk, halt flag, hour count and target are the ones the review derives from its own peak and slice mean |
| H1Acceptance.EntryAgrees | src/tidelab/h1_trial_review.py:123-142 | An entry of the ledger has the quantity, price, fee and remaining account the review and the analysis recompute |
| H1Acceptance.ExitAgrees | src/tidelab/h1_trial_review.py:143-159 | An exit sells the exact inventory and closes the trade with the proceeds the review and the analysis recompute |
| H1Acceptance.MarksIgnoreLaterFill | src/tidelab/h1_trial_review.py:180-189 | Marks rebuilt from fills at or before an opening are not disturbed by any later fill |
| H1Acceptance.ReplayJoined | src/tidelab/h1_trial_review.py:90-222 | At every hour of a replay the review's fill pass and mark pass stand exactly where the replay stands |
| H1Acceptance.AnalysisOfRun | scripts/lean_fallback/TideLabH1V1TrialAccounting.cs:24-84 | The analysis rebuilds the books of every replay result without a mismatch; only benchmarks can fail |
| H1Results.ResultIsTold | scripts/lean_fallback/TideLabH1V1ResearchReplay.cs:62-134 | Every completed run in plain arithmetic: entries pay open times one plus the adverse rate for the most eight-decimal units within a quarter of the cash, exits sell all at one minus it, cash moves by value and fee, every fill but the terminal one answers a decision; each mark is cash plus units times close of the last fill so far and its exposure the held share; each decision follows from the mean of the last 168 closes, the holding, and whether any mark, warmup included, fell a fifth below an earlier one |
| H1Records.RecordsAreTold | scripts/lean_fallback/TideLabH1V1TrialAccounting.cs:24-155 | The four records of every analysed run: return, fees, turnover, trips and largest trip from its fills, drawdown and underwater hours from its marks, and two hold benchmarks bought and sold at the first and last scored opens |
| H1ReviewMeaning.AcceptedIsTold | src/tidelab/h1_trial_review.py:90-231 | Whatever result the review accepts, made by whomever: its fills, marks, decisions and records satisfy the same plain statements, except that a fill need not answer a decision |
| H1ReviewMeaning.UnaskedAccepted | src/tidelab/h1_trial_review.py:215-222 | A result whose entry no decision called for passes the review, although the replay of its bars does not return it |
| H1Safety.RunSafety | scripts/lean_fallback/TideLabH1V1ResearchReplay.cs:62-134 | With valid bars and rates a run can only throw for a zero-unit entry; otherwise it ends flat with positive cash, fills alternate, and every non-hold scored decision is filled at exactly the next open |
| H1Safety.ReplayKeeps | scripts/lean_fallback/TideLabH1V1ResearchReplay.cs:67-95 | Until it throws, and then only for zero units, every hour of the replay keeps cash positive, units nonnegative and the fill tape in order |
| H1Safety.HaltAllowsOneExit | scripts/lean_fallback/TideLabH1V1Policy.cs:61-67 | After the drawdown halt at any hour at most one further fill occurs in the whole run, and it is an exit |
| H1Safety.HaltHolds | scripts/lean_fallback/TideLabH1V1Policy.cs:62-67 | Once halted, every later state is halted and proposes nothing but the exit of what is held |
| H1Safety.EntryFacts | scripts/lean_fallback/TideLabH1V1ResearchReplay.cs:104-119 | An entry never borrows: a quarter of cash rounded down to eight decimals leaves the fee payable, or rounds to zero units |
| H1Policy.HaltedMeansDrawdown | scripts/lean_fallback/TideLabH1V1Policy.cs:61-63 | The halt flag is set exactly when some mark fell a fifth below an earlier or equal mark |
| H1Policy.PeakIsHighest | scripts/lean_fallback/TideLabH1V1Policy.cs:61-61 | The running peak is one of the marks seen and no mark exceeds it |
| H1Policy.LastValuesAppend | scripts/lean_fallback/TideLabH1V1Policy.cs:34-36 | Enqueueing a close and dropping the head keeps exactly the newest 168 closes |
| Exact.SumTail | scripts/lean_fallback/TideLabH1V1Policy.cs:34-36 | Subtracting the dropped head keeps the running sum equal to the sum of the queue |
| H1Policy.Signal.OnClosedHour | scripts/lean_fallback/TideLabH1V1Policy.cs:23-44 | The rolling queue and sum answer with the mean of the last 168 closes of the whole history, or reject a bad bar or a missing hour |
| H1Policy.RiskGate.Evaluate | scripts/lean_fallback/TideLabH1V1Policy.cs:54-76 | The gate's peak and halt are those of the whole mark history, and its answer follows from them |
| H1Policy.Policy.OnClosedHour | scripts/lean_fallback/TideLabH1V1Policy.cs:85-102 | One decision per closed hour as a function of the closes and marks so far |
| H1Replay.Ledger.Execute | scripts/lean_fallback/TideLabH1V1ResearchReplay.cs:101-134 | One fill of the ledger, with every throw of the program |
| H1Replay.FillPending | scripts/lean_fallback/TideLabH1V1ResearchReplay.cs:70-77 | A pending proposal fills at this open or not at all |
| H1Replay.MarkAndDecide | scripts/lean_fallback/TideLabH1V1ResearchReplay.cs:85-94 | One close: the mark is cash plus units times close, and mark, exposure and decision are those of the replay |
| H1Replay.Run | scripts/lean_fallback/TideLabH1V1ResearchReplay.cs:27-99 | The whole loop, tied to the replay that the safety, acceptance and `H1Results.ResultIsTold` theorems are about |
| H1Accounting.Metrics | scripts/lean_fallback/TideLabH1V1TrialAccounting.cs:115-155 | The metric loop: worst fall, underwater hours and longest run as defined over the equity series |
| H1Accounting.RebuildBooks | scripts/lean_fallback/TideLabH1V1TrialAccounting.cs:37-75 | The pass over the fills accepts exactly consistent books and returns trips, largest result and turnover |
| H1Accounting.Analyze | scripts/lean_fallback/TideLabH1V1TrialAccounting.cs:24-84 | All four metric records, or a failure, as a function of the replay result |
| H1Review.ReviewFills | src/tidelab/h1_trial_review.py:103-164 | The review's pass over the fills accepts exactly the fills that satisfy all of its conditions |
| H1Review.ReviewMarks | src/tidelab/h1_trial_review.py:166-222 | The review's pass over decisions and marks accepts exactly when each hour satisfies all of its conditions |
| H1Review.ReviewMetrics | src/tidelab/h1_trial_review.py:38-59 | The review's separately written metric loop computes the same statistics |
| H1Review.ReviewCase | src/tidelab/h1_trial_review.py:90-231 | The whole review as one acceptance condition |
| Drawdown.WorstFallIsMaximum | src/tidelab/historical_batch.py:230-231 | The streaming drawdown is the maximum of (e_i - e_j)/e_i over i <= j with the opening cash included, attained by some pair |
| Drawdown.PeakIsMaximum | src/tidelab/historical_batch.py:230-230 | The running peak is the largest equity so far, opening cash included |
| Drawdown.RunsWithinTotal | scripts/lean_fallback/TideLabH1V1TrialAccounting.cs:125-147 | The longest underwater run bounds every run and never exceeds the underwater total or the hours |
| Drawdown.UnderwaterCounts | scripts/lean_fallback/TideLabH1V1TrialAccounting.cs:125-147 | Underwater hours are the number of hours whose equity stands below an earlier one or the opening cash |
| Drawdown.LongestIsLongest | scripts/lean_fallback/TideLabH1V1TrialAccounting.cs:125-147 | The longest run is the length of some unbroken block of such hours and no block is longer |
| Registry.OneUnfinished | src/tidelab/trial_registry.py:174-176 | In every run of the registry at most one batch is unfinished, and it is the latest |
| Registry.RetryChain | src/tidelab/trial_registry.py:159-173 | Batches of one family and generation form one retry chain with one plan and one identity list; every link but the last failed or was aborted, so at most one completes, and each names its predecessor |
| Registry.ChainBack | src/tidelab/trial_registry.py:163-171 | Any two batches of a family and generation are linked back through retries with equal plan and identities |
| Registry.ClosedMeansCovered | src/tidelab/trial_registry.py:239-242 | A closed batch has an outcome for every index of its inventory |
| Registry.ClosesExactlyWhenCovered | src/tidelab/trial_registry.py:239-249 | Closing is accepted if and only if every index has an outcome, although the code only compares counts |
| Registry.Pigeonhole | src/tidelab/trial_registry.py:240-242 | Distinct bounded keys are as many as the places exactly when they fill every place |
| Registry.AttemptsAdmittedOnce | src/tidelab/trial_registry.py:277-291 | In every run no version has two open attempts, no identity is validated twice, no version opens its untouched data twice, and verdicts follow their starts |
| Registry.RecordsStay | src/tidelab/trial_registry.py:118-123 | No recorded row is ever changed or missing later in a run |
| Registry.ApplyKeeps | src/tidelab/trial_registry.py:138-333 | Every call keeps the registry invariant and only appends |
| Registry.AdmittedExactly | src/tidelab/trial_registry.py:154-187 | A request is admitted if and only if it is for development, every batch is closed, and it is either the first of its study and no retry, or names the last of its study, which failed or was aborted, with the same plan and identities |
| Registry.StartedExactly | src/tidelab/trial_registry.py:266-298 | A start is accepted if and only if its name is portable and either known with the same terms, or new while nobody has its version open, has validated its identity, or has opened its untouched data, as its phase asks |
| Registry.TrialRegistry.ReserveBatch | src/tidelab/trial_registry.py:138-187 | Malformed names or plan digest and empty inventories are refused; otherwise admission or a retained rejection, in the order the checks override each other |
| Registry.TrialRegistry.StartAttempt | src/tidelab/trial_registry.py:266-298 | The transaction of a start: appended, replayed, or refused for each of the program's reasons |
| Registry.TrialRegistry.CheckAndStart | src/tidelab/trial_registry.py:255-298 | A start checks its identity document first and changes nothing unless building it again gives the same document |
| ExperimentIdentity.CheckedExactly | src/tidelab/trial_registry.py:29-42 | Accepted are exactly the documents the builder returns for some sections; their strategy and version are portable names, and unless digests collide a digest belongs to one document |
| ExperimentIdentity.BuildIdentity | src/tidelab/experiment_identity.py:17-77 | Section by section: the exact keys, and per field the text, number, digest or listed choice it must be; the document or nothing |
| ExperimentIdentity.NamesSpelledOut | src/tidelab/experiment_identity.py:19-20 | Portable names and digests spelled out character by character |
| Registry.TrialRegistry.FinishAttempt | src/tidelab/trial_registry.py:300-333 | A verdict is appended once, replayed identically, or refused |
| Registry.TrialRegistry.RecordJob | src/tidelab/trial_registry.py:211-230 | A job outcome is recorded once per index, replayed identically, or refused |
| Registry.TrialRegistry.CloseBatch | src/tidelab/trial_registry.py:232-253 | A batch outcome is recorded once, with the count guard |
| Registry.TrialRegistry.Status | src/tidelab/trial_registry.py:335-340 | Unknown, open, or the recorded outcome |
| Registry.TrialRegistry.GetBatch | src/tidelab/trial_registry.py:189-209 | The stored batch, its job outcomes, its closing, and for every known attempt of its inventory the verdict or that it is open |
| HistoricalBatch.Survive | src/tidelab/historical_batch.py:363-464 | A run that dies anywhere and recoveries that die anywhere, each at its own time and any number of them, while other processes use the registry before every step: once reserved, one more recovery with abort closes the batch with exactly one outcome per index and no started attempt of the batch open, and every row recorded after the run or after any recovery stands unchanged at the end, closing and summary saying aborted, failed or completed by the job outcomes |
| HistoricalBatch.RecoverWithoutAbort | src/tidelab/historical_batch.py:417-464 | If every job directory was finalized when the run died, repeated recovery without abort, each at its own time and beside any other processes, ends with the job outcomes, attempt verdicts, status and summary of an uninterrupted run beside any others |
| ForeignCalls.ForeignKeeps | src/tidelab/trial_registry.py:138-333 | Any call about another batch or attempt, accepted or refused, leaves every row of the batch as it was |
| ForeignCalls.ConsistentStays | src/tidelab/historical_batch.py:264-280 | With its rows unchanged a batch keeps its consistency, its slots, its summary and its being finished |
| HistoricalBatch.Workspace.Run | src/tidelab/historical_batch.py:354-414 | The whole run with a death before any durable effect and other processes acting before each: what it returns, what it leaves for recovery, and that only an attempt of somebody else open on a tested version can make a start fail, and if it finishes, closing and summary say aborted, failed or completed by the job outcomes as `BatchMeaning.FinishedIsTold` states |
| HistoricalBatch.Workspace.Recover | src/tidelab/historical_batch.py:417-464 | Recovery never fails on a batch a run or recovery left behind, whatever other processes do meanwhile, except that it demands an explicit abort exactly when some index has neither outcome nor finalized job directory, and then it changes nothing, and if it finishes, closing and summary say aborted, failed or completed by the job outcomes as `BatchMeaning.FinishedIsTold` states |
| HistoricalBatch.Workspace.RecoverJob | src/tidelab/historical_batch.py:436-460 | One index: its recorded artifact checked, or its abort or job artifact completed, or an abort written first |
| HistoricalBatch.Workspace.CompleteJob | src/tidelab/historical_batch.py:248-261 | Verdict and outcome of a finalized directory are recorded, again and again with the same effect |
| HistoricalBatch.Workspace.CloseBatch | src/tidelab/historical_batch.py:264-280 | Summary, manifest and closing are each published once and agree with the registry, with the status and counts the job outcomes call for |
| HistoricalBatch.Workspace.StartAll | src/tidelab/historical_batch.py:364-366 | Every admitted attempt is started before any work |
| HistoricalBatch.Workspace.RunJobs | src/tidelab/historical_batch.py:369-409 | Each item is evaluated, finalized and recorded in order |
| HistoricalBatch.Workspace.Conclude | src/tidelab/historical_batch.py:410-414 | Timing, status from the outcomes, and closing |
| BatchState.SameFinish | src/tidelab/historical_batch.py:412-414 | A closed batch whose job directories were all finalized has outcomes, verdicts, status and summary determined by those directories alone |
| BatchState.ClosedIsFinished | src/tidelab/historical_batch.py:428-431 | A closed batch has exactly one outcome per index, and no started attempt of it is open |
| BatchState.VerdictKeeps | src/tidelab/historical_batch.py:257-259 | The verdict of an attempt is accepted when first written and when repeated after a crash |
| BatchState.RecordKeeps | src/tidelab/historical_batch.py:260-261 | The outcome of an index is accepted when first written and when repeated after a crash |
| BatchState.ClosingKeeps | src/tidelab/trial_registry.py:239-249 | With every index recorded the count guard passes and closing leaves the batch finished |
| BatchMeaning.FinishedIsTold | src/tidelab/historical_batch.py:264-280 | Every closed consistent batch: the closing and the summary say aborted exactly when some job ended aborted, failed exactly when none did and some failed, completed exactly when neither; every count of the summary is the size of a set of indices; each job names its index, attempt and identity, and the verdict of its attempt is the same outcome with the same artifact |
| BatchMeaning.StatusIsTold | src/tidelab/historical_batch.py:410-413 | The three outcomes as three if-and-only-ifs over the job outcomes |
| BatchMeaning.SummaryIsTold | src/tidelab/historical_batch.py:264-280 | The five counts and the number of distinct configurations as cardinalities, and the jobs in index order |
| BatchInventory.PrepareJobs | src/tidelab/historical_batch.py:182-214 | Every job of the plan is screened by each check in order and accounted for; the first job of each configuration key is admitted and every later one points to it |
| BatchInventory.ScreenedExactly | src/tidelab/historical_batch.py:182-214 | A job is keyed if and only if it is requested, its package is sound, its benchmark is one of the two or none and its warmup is covered; what the key digests; and unsupported is told from invalid exactly |
| BatchInventory.ConfigurationsOnce | src/tidelab/historical_batch.py:199-209 | Unless digests collide, every configuration that passes screening (a rule, or a benchmark whatever its package, in a market at a cost) is admitted exactly once, as its first job, and all its other jobs are duplicates of that one |
| BatchInventory.AdmittedOnce | src/tidelab/historical_batch.py:203-208 | Exactly one job per configuration key is admitted, and it is the first |
| BatchInventory.NameAttempts | src/tidelab/historical_batch.py:328-344 | Attempt names and tested versions of one batch are pairwise distinct, so its own starts never block each other |
| BatchInventory.AttemptNames | src/tidelab/historical_batch.py:333-333 | Different indices give different attempt names, and names stay portable tokens |
| PaperTheorems.OneOrder | src/tidelab/synthetic_paper.py:39-72 | Over any interleaving at most one order is ever written per client ID, and exactly the stored one |
| PaperTheorems.TwoClaimersOneOrder | src/tidelab/synthetic_paper.py:73-99 | Two claimers can both be told yes after a rearm; the second submission still writes nothing |
| PaperTheorems.ReclaimedExactly | src/tidelab/synthetic_paper.py:73-99 | An intent with an accepted broker report can be rearmed and claimed again exactly when the store has no hold, it is unguarded and no synthetic order stands for it; then its submission writes an order, and it is the first intent of the store |
| PaperTheorems.ReclaimReached | src/tidelab/synthetic_paper.py:73-99 | A possible run gets there: prepared, claimed, reported, then rearmed, claimed again and submitted |
| PaperTheorems.OrdersHaveClaims | src/tidelab/synthetic_paper.py:44-66 | An order exists only with its intent claimed and with identical terms |
| PaperTheorems.OneUnresolved | src/tidelab/paper_intent.py:157-168 | At every moment, also after a handoff, exactly the last intent is unresolved |
| PaperTheorems.RunConserves | src/tidelab/h1_local_report_join.py:142-163 | Along the chain of handoffs, for every accepted report: its cash plus all fees so far plus all purchases equals the first opening cash plus all sales, and its holding the first units plus bought less sold, each sum taken over all stored executions so far |
| PaperTheorems.Conservation | src/tidelab/h1_local_report_join.py:243-249 | The same for any state that keeps the invariant, by induction along the chain |
| PaperTheorems.AcceptedAccount | src/tidelab/h1_local_report_join.py:142-164 | With separate sums of price times quantity, of quantity and of fees: an accepted report of a purchase has its opening cash less value less fees, one of a sale its opening cash plus value less fees; its holding moves by the quantity; and its status follows from the quantity |
| PaperTheorems.HandedAccount | src/tidelab/h1_local_report_join.py:243-250 | A successor opens with exactly the account its predecessor's terminal report closed with, marked at its own limit, one hour later in the same experiment and instrument |
| PaperTheorems.OrderStep | src/tidelab/h1_local_report_join.py:182-211 | An order appears at revision 1 and moves up by at most one per transaction; stored executions are only appended; a terminal order is frozen |
| PaperTheorems.OrderAdvances | src/tidelab/h1_local_report_join.py:182-211 | The same between any two moments of a run |
| PaperTheorems.FilledNeverFalls | src/tidelab/h1_local_report_join.py:157-164 | Filled quantity never falls from one moment to a later one and never exceeds the proposal's quantity |
| PaperTheorems.SameSums | src/tidelab/h1_local_report_join.py:203-205 | The stored order of executions does not matter to quantities and cash |
| PaperTheorems.RunPreserves | src/tidelab/h1_local_report_join.py:294-307 | No transaction changes terms, lifts a guard, or rewrites a proposal, resolution, handoff snapshot or synthetic order |
| PaperTheorems.KnowledgeStays | src/tidelab/h1_local_report_join.py:227-229 | What a process learned from its own earlier transaction stays true under any interleaving |
| PaperTheorems.HoldLatches | src/tidelab/h1_local_report_join.py:365-367 | Once a late report or snapshot change is recorded, no later step of any component creates an intent or moves one to claimed |
| PaperTheorems.GuardedClaim | src/tidelab/h1_local_report_join.py:339-385 | A guarded successor is claimed only by an observation whose report and both snapshot reads equal those stored at its handoff by the intent before it |
| PaperTheorems.FirstGuardedNever | src/tidelab/h1_local_report_join.py:339-347 | Nothing claims a guarded first intent |
| PaperTheorems.FirstHasNoParent | src/tidelab/h1_local_report_join.py:339-347 | No report of a store is the source of its first intent, since along the line each report goes back one report more |
| PaperTheorems.StuckForever | src/tidelab/paper_intent.py:120-122 | A store whose only intent is guarded, unclaimed and unreported stays so in every run: nothing is ever claimed, submitted, reported or newly prepared |
| PaperTheorems.StuckReached | src/tidelab/paper_intent.py:120-122 | Preparing a first intent and opening the store again gets there exactly when the source names a report |
| PaperTheorems.NewlyClaimed | src/tidelab/paper_intent.py:181-202 | Only the plain claim of an unguarded intent and the guarded observation set a claim, and neither under a hold |
| PaperTheorems.LinkedParent | src/tidelab/h1_local_report_join.py:339-347 | The parent found by the report hash is the intent before it in the chain, and no other order has that report |
| PaperInvariant.RunKeeps | src/tidelab/h1_local_report_join.py:167-211 | Every interleaving of all nine transactions keeps the invariant of all tables |
| PaperInvariant.PrepareKeeps | src/tidelab/paper_intent.py:157-168 | The plain preparation can only ever write the first intent of a store |
| PaperInvariant.HandoffKeeps | src/tidelab/h1_local_report_join.py:257-311 | A handoff resolves the last intent and appends its successor to the chain |
| PaperInvariant.StoredBecome | src/tidelab/h1_local_report_join.py:197-205 | Insert-or-ignore of a report that keeps the stored rows stores exactly its executions |
| PaperInvariant.ReconcileFrozen | src/tidelab/h1_local_report_join.py:191-196 | A report of a resolved or terminal order is accepted only if it changes nothing |
| PaperTheorems.AcceptedOrder | src/tidelab/paper_intent.py:58-69 | An intent the rules accept is a positive whole number of increments in quantity and in limit, reaches the base minimum, and is worth at least the quote minimum |
| PaperTheorems.StoredOrders | src/tidelab/paper_intent.py:135-173 | In every run this holds of every stored intent, guarded successors included |
| PaperTheorems.StoredProposals | src/tidelab/h1_paper_bridge.py:82-139 | In every run each stored proposal that buys opens from cash alone with the most eight-decimal units a quarter of its equity pays for at its limit, within its cash; each that sells sells all that is held; decision, risk and halt agree with the side |
| PaperTheorems.NamedReports | src/tidelab/paper_intent.py:120-122 | A plain revision counts as the hash of a report exactly with the report prefix, each letter in either case |
| PaperTheorems.BrokersUnique | src/tidelab/h1_local_report_join.py:89-96 | In every run no two orders share a broker identifier |
| PaperStore.ReadExecutions | src/tidelab/h1_local_report_join.py:139-156 | The loop over a report's executions accepts exactly distinct positive ones and leaves the opening cash less value and fees of purchases, or plus value less fees of sales |
| PaperStore.CheckReport | src/tidelab/h1_local_report_join.py:103-164 | Every check of a report that needs no stored row |
| PaperStore.CheckProposal | src/tidelab/h1_paper_bridge.py:82-139 | Every check of a proposal at its opening instant, value by value |
| PaperStore.ReadPair | src/tidelab/h1_local_report_join.py:38-77 | Two equal reads of one consistent terminal cursor that shows the report, or a refusal |
| PaperStore.Store.Prepare | src/tidelab/paper_intent.py:135-173 | One transaction: the intent, an identical replay, or a refusal |
| PaperStore.Store.ClaimOnce | src/tidelab/paper_intent.py:175-205 | One transaction: the claim to one caller, or a refusal |
| PaperStore.Store.BridgePrepare | src/tidelab/h1_paper_bridge.py:58-80 | Validation, the intent, then the proposal beside it, in two transactions |
| PaperStore.Store.BridgeClaim | src/tidelab/h1_paper_bridge.py:140-153 | A claim only at the opening instant of the stored proposal |
| PaperStore.Store.Submit | src/tidelab/synthetic_paper.py:39-71 | One transaction: the order, an identical replay, or a refusal |
| PaperStore.Store.AdoptOrRearm | src/tidelab/synthetic_paper.py:73-102 | Adopt a present order or rearm the same ID on absence |
| PaperStore.Store.Reconcile | src/tidelab/h1_local_report_join.py:103-216 | One complete revisioned report of a claimed proposal is stored or refused, also when its broker identifier is another order's |
| PaperStore.Store.Handoff | src/tidelab/h1_local_report_join.py:218-312 | Reconcile, then retire the terminal order and prepare its guarded successor |
| PaperStore.Store.ObserveHandoff | src/tidelab/h1_local_report_join.py:314-392 | Recheck the parent's evidence, latch a hold on a change, claim when asked |
| PaperStore.Store.ClaimAfterHandoff | src/tidelab/h1_local_report_join.py:394-406 | Validate a successor and claim it through the observation |
| Delivery.Venue.Reconcile | scripts/lean_fallback/TideLabExecutionDeliveryProbe.cs:69-109 | In any weather the engine stays at the state after its first k executions, k grows by at most one, and the ledger leads by at most one; undisturbed it delivers exactly when it names the only missing execution; a report two ahead of the engine changes nothing in the engine; a leftover replacement is left exactly by a death while committing the execution it names, stays, and stops every commit |
| Delivery.ReconcileAll | scripts/lean_fallback/TideLabExecutionDeliveryProbe.cs:69-109 | The same over any sequence of calls with lost deliveries, lost acknowledgements and deaths: growth by at most one per call; with a report two ahead no sequence of calls ever delivers; with a leftover replacement the ledger never changes, and if it equals the delivered count nothing is ever delivered |
| Delivery.TwoAhead | scripts/lean_fallback/TideLabExecutionDeliveryProbe.cs:69-109 | A venue with one execution delivered and two appended exists, and after any sequence of calls the engine still has one |
| Delivery.LeftOver | scripts/lean_fallback/TideLabExecutionLedgerProbe.cs:191-194 | A venue whose process died between writing and moving the replacement exists, and after any sequence of calls the reported execution is still not delivered |
| Delivery.ExactlyOnce | scripts/lean_fallback/TideLabExecutionDeliveryProbe.cs:111-121 | The engine state determines how many executions it had; each of those is in the ledger, and the ledger is a prefix of the report |
| Delivery.AccountsTold | scripts/lean_fallback/TideLabExecutionDeliveryProbe.cs:111-121 | Engine, ledger and report each show the starting cash less value less fees of their executions and the holding they moved, and the order is open exactly while less than its quantity is held |
| Delivery.ExpectedDistinct | scripts/lean_fallback/TideLabExecutionDeliveryProbe.cs:111-121 | With positive quantities different numbers of executions leave different engine states |
| Delivery.Venue.Screen | scripts/lean_fallback/TideLabExecutionLedgerProbe.cs:176-197 | For any execution ID and terms the exact answer: unreported, other terms, suppressed, or committed, the last exactly when it is the next and the last reported and no replacement file was left over |
| Delivery.Venue.Bring | scripts/lean_fallback/TideLabExecutionDeliveryProbe.cs:88-108 | After the commit the delivery happens at most once, whatever is lost |
| PackageTheorems.NoLookahead | src/tidelab/strategy_batch.py:405-456 | Two valid histories that agree before bar j, both longer than j, give the same replay state and rows before j |
| PackageTheorems.RowsBefore | src/tidelab/strategy_batch.py:446-456 | The rows of two completed replays agree before the first bar at which the histories may differ |
| PackageTheorems.FillNeedsOnlyOpen | src/tidelab/strategy_batch.py:407-427 | A fill at bar j depends on bar j only through its open |
| PackageTheorems.CostIndependence | src/tidelab/strategy_batch.py:409-441 | Entry, exit, action and fill-side sequence, fill bars and counts are the same under any two cost settings that both complete |
| PackageTheorems.MatchesSignalTrace | src/tidelab/strategy_batch.py:339-344 | The rule values of every row equal the execution-free signal trace wherever it is defined, and are absent elsewhere |
| PackageTheorems.ReplayChains | src/tidelab/strategy_batch.py:428-441 | Every scored decision is filled at exactly the next open on its own side at that open's adverse price, and nothing else fills |
| PackageTheorems.ReplayKeeps | src/tidelab/strategy_batch.py:405-445 | A replay of a parsed package can only stop below one unit or at the overflow bound; cash and units stay nonnegative, fills alternate and books balance at every bar |
| PackageTheorems.CompletedReplay | src/tidelab/strategy_batch.py:401-464 | A completed replay leaves no decision unfilled, positive equities, and terminal equity less initial cash equal to the closed-trade profits plus the unrealized amount |
| PackageTheorems.DrawdownIsMaximum | src/tidelab/historical_batch.py:225-246 | The drawdown the sink reports for a completed replay is the true maximum over all pairs of its equities |
| PackageTheorems.BoughtWithin | src/tidelab/strategy_batch.py:419-423 | A purchase is whole units that cost no more, fee included, than the smaller of target and cash |
| PackageResults.ResultIsTold | src/tidelab/strategy_batch.py:405-464 | Every completed replay row by row in plain arithmetic: a buy fills at open times one plus the adverse rate, its quantity is the largest multiple of the unit within cash times fraction (or cash alone, if smaller) with fee, a sale sells all; rows mark cash plus units times close; and buys and sales happen exactly after the rules said so of the bar before |
| PackageReplay.ReplayPackage | src/tidelab/strategy_batch.py:373-464 | The whole loop with all of its refusals, tied to the replay the theorems are about, `PackageResults.ResultIsTold` among them |
| PackageMetrics.Metrics.Emit | src/tidelab/historical_batch.py:225-237 | One streamed row updates every statistic to that of the longer trace |
| PackageMetrics.Metrics.Result | src/tidelab/historical_batch.py:239-246 | The sink's report equals the metrics of the whole trace computed without the stream |
| PackageMetrics.TraceDiagnostics | src/tidelab/batch_review.py:37-68 | The loop over a trace returns the largest closed result, the unrealized amount and the exit cost of the fills in it |
| Expression.TruthDefined | src/tidelab/strategy_batch.py:82-133 | Warmup soundness: an accepted rule reads no missing bar and no absent indicator at any index from warmup - 1 on |
| Expression.ValueDefined | src/tidelab/strategy_batch.py:306-320 | The same for every accepted numeric node |
| Expression.TruthLocal | src/tidelab/strategy_batch.py:323-336 | Without RSI a rule depends only on the last warmup bars, wherever they stand |
| Expression.TruthPrefix | src/tidelab/strategy_batch.py:323-336 | Even with RSI a rule at a bar depends on nothing after that bar |
| ExpressionMeaning.CheckExactly | src/tidelab/strategy_batch.py:82-133 | A rule is accepted if and only if its shape is offered by the schema, it is at most 12 deep and has at most 64 nodes; and its warmup is the largest number of bars any node reaches back |
| ExpressionMeaning.OnlySecondUsesRsi | src/tidelab/strategy_batch.py:82-133 | Accepted rules of every schema but the second hold no RSI, so that they depend on their last warmup bars alone |
| ExpressionMeaning.TruthIsHolds | src/tidelab/strategy_batch.py:306-336 | At every bar past its reach the evaluator gives a rule of that shape its plain truth value over the bars: for a connective over all parts, without short cuts |
| PackageResults.ParsedExactly | src/tidelab/strategy_batch.py:166-178 | A package's rules are accepted if and only if the fraction is at most one, entry and exit have a shape their schema offers, are at most 12 deep and together at most 64 nodes; the warmup is the larger reach |
| ExpressionMeaning.AcceptedMeans | src/tidelab/strategy_batch.py:82-133 | So every accepted rule has its plain truth value from its warmup on |
| Expression.BuildSeries | src/tidelab/strategy_batch.py:240-256 | The deque and Wilder passes build the series the evaluator is specified on |
| Indicators.PriorExtremes | src/tidelab/strategy_batch.py:258-269 | One deque pass yields at every bar none before the window fills and then exactly the extreme of the preceding window; the logs show each bar pushed exactly once, in order, and popped at most once |
| Indicators.ExtremeBounds | src/tidelab/strategy_batch.py:271-277 | The specified window extreme is one of the window's values and bounds all of them |
| Indicators.Rsi14 | src/tidelab/strategy_batch.py:279-303 | The Wilder loop computes the specified index at every bar |
| Indicators.SeedIsMean | src/tidelab/strategy_batch.py:294-297 | At index 14 the smoothed move is the plain mean of the first fourteen |
| Indicators.SmoothedClosedForm | src/tidelab/strategy_batch.py:298-300 | Later it equals the closed form with weights (1/14)(13/14)^k and the rest on the seed |
| Indicators.WeightsAreConvex | src/tidelab/strategy_batch.py:288-300 | Those weights are nonnegative and sum to one with the seed's share |
| Indicators.SmoothedWithin | src/tidelab/strategy_batch.py:294-300 | The smoothed move stays within the range of the moves it averages |
| Indicators.RsiInRange | src/tidelab/strategy_batch.py:301-302 | Every value lies between 0 and 100 |
| Indicators.StrengthIsShare | src/tidelab/strategy_batch.py:301-302 | With a smoothed loss above the rounding bound the distance to 100 is the share of the loss in all movement, otherwise the value is 100 |
| LowVolTheorems.ReplayMeasured | scripts/low_vol_private_trial.py:228-234 | For every completed replay with the default cash, measuring its fills hour by hour never raises and returns the same cash, fees, turnover and terminal equity |
| LowVolTheorems.OneMarketOneWay | src/tidelab/low_vol_five_spot.py:209-240 | At most one market is ever held; a rebalance of the held market only sells or only buys, and otherwise sells everything before it buys |
| LowVolTheorems.TargetReached | src/tidelab/low_vol_five_spot.py:198-240 | A rebalance ends with exactly the rounded quarter of marked equity in the selected market and nothing else, less only when the cash affords no more units |
| LowVolResults.ReplayIsTold | src/tidelab/low_vol_five_spot.py:189-247 | Every rebalance of a completed replay in plain arithmetic: the target is the most eight-decimal units a quarter of cash plus holding pays for at the close before, prices are the next open times one plus or minus all adverse costs, a sale sells the excess and a purchase buys the shortfall as far as cash and fee allow |
| LowVolResults.MonthsAreSpaced | src/tidelab/low_vol_five_spot.py:79-81 | Monthly signals are spaced as the replay asks of its callers |
| LowVolResults.TerminalIsTold | src/tidelab/low_vol_five_spot.py:244-247 | The terminal equity is cash plus what is held at the terminal open |
| LowVolTheorems.ReplaySettles | src/tidelab/low_vol_five_spot.py:189-243 | After every signal the account equals the independent posting of all fills so far, which are in time order |
| LowVolTheorems.WalkPosts | src/tidelab/low_vol_five_spot.py:288-317 | The hourly cursor posts exactly the fills up to each hour |
| LowVolTheorems.CrossCheck | scripts/low_vol_private_trial.py:228-234 | The study's comparison of policy and ledger never reports a disagreement |
| LowVol.RunReplay | src/tidelab/low_vol_five_spot.py:149-247 | The monthly loop with all of its refusals, tied to the replay the theorems are about |
| LowVol.IndexBars | src/tidelab/low_vol_five_spot.py:98-125 | The five series are accepted exactly when they are good, contiguous and share one window |
| LowVol.BarAtIsLookup | src/tidelab/low_vol_five_spot.py:107-118 | The position in the common window is the lookup by hour |
| LowVolLedger.Measure | src/tidelab/low_vol_five_spot.py:278-325 | The hourly loop with its refusals, and its drawdown as the worst fall over all hourly values and the terminal one |
| LowVolPassive.PassiveFills | src/tidelab/low_vol_five_spot.py:250-275 | The passive comparators' fills |
| LowVolPassive.PassiveIsTold | src/tidelab/low_vol_five_spot.py:250-275 | Every allocation of a comparator: its budget, the most units it pays for at the close before the signal, its adverse price, its fee, and the cash left |
| LowVolPassive.PassiveMeasured | src/tidelab/low_vol_five_spot.py:250-325 | Every completed comparator is measured without raising, and its cash never goes below zero |
| CandidateTheorems.EndsFlat | src/tidelab/candidate_screen.py:226-236 | Every screen that reaches its last bar ends flat, so the liquidation check never fails, and trade results sum to final cash minus 10000 |
| CandidateTheorems.FillsInOrder | src/tidelab/candidate_screen.py:167-225 | Fills alternate; no buy on the last bar, none after the 20% pause, and a reversal trade is sold no later than 48 bars after its fill |
| CandidateTheorems.TradesExplained | src/tidelab/candidate_screen.py:205-225 | Every buy follows the momentum or the reversal rule, both spelled out, at the close before, and every sale the pause, the family's exit rule, or the last bar |
| CandidateTheorems.OnlyBelowUnit | src/tidelab/candidate_screen.py:128-143 | With ordinary costs and positive prices no purchase exceeds the cash and a screen can only stop at an allocation below one unit |
| CandidateTheorems.BuyWithinCash | src/tidelab/candidate_screen.py:132-140 | A quantity rounded down from an allocation within the cash is paid for, fee included |
| CandidateResults.ScreenIsTold | src/tidelab/candidate_screen.py:125-236 | Every completed screen: an opening buys if and only if the account is flat, no mark has fallen a fifth below an earlier one, two bars remain and the close before is above the close 720 hours earlier (momentum) or at most 0.95 of the close 24 hours earlier (reversal); it sells if and only if the pause, the family's exit or the last bar says so; and quantities, cash, fees, marks, exposure and report in plain arithmetic |
| Candidate.RunScreen | src/tidelab/candidate_screen.py:146-236 | The whole loop with all of its refusals, tied to the screen the theorems are about, and its report |
| Candidate.Marks.Mark | src/tidelab/candidate_screen.py:191-200 | The running marks are the peak, worst fall and underwater statistics of all values so far |
| Candidate.Marks.Last | src/tidelab/candidate_screen.py:188-190 | Leaving the peak alone at the last bar gives the same worst fall |
| PineMeaning.CompileMeans | src/tidelab/pine_subset.py:89-228 | For every accepted program and history the emitted entry and exit predicates equal, at every bar, the evaluation of its alias declarations in order and then its `if` conditions |
| PineMeaning.CompileMeansOnBars | src/tidelab/pine_subset.py:89-228 | The same on the series the emitted schema-1 package is evaluated on: at every bar of any history both predicates equal the program evaluated over the closes |
| PineMeaning.CompilesExactly | src/tidelab/pine_subset.py:182-203 | A program the import accepts compiles exactly when its position size is between 1 and 100 |
| PineMeaning.ExpressionStands | src/tidelab/pine_subset.py:55-86 | Each accepted expression's symbol agrees with its value at every bar |
| PineCanonical.ImportIdempotent | src/tidelab/pine_subset.py:148-151 | Importing the canonical eight lines gives the same eight lines |
| PineCanonical.CanonicalRule | src/tidelab/pine_subset.py:198-228 | The canonical lines always read as the rule of their window; only the position size can be refused |
| PineCanonical.HeaderExactly | src/tidelab/pine_subset.py:21-25 | A header line is accepted only if it is exactly the supported options around one title and one size |
| PineCanonical.AcceptedProgram | src/tidelab/pine_subset.py:117-147 | Every accepted program has a quoted title, a numeric size and a window from 2 to 10000 |
| PineLexer.Lossless | src/tidelab/pine_subset.py:41-52 | Every character of a line is in exactly one piece, in order |
| PineLexer.RoundTrip | src/tidelab/pine_subset.py:41-52 | Lexing what was written from separable pieces gives the pieces back |
| PineLexer.LexemesSpelledOut | src/tidelab/pine_subset.py:35-35 | The character classes of the lexer and its quoted titles of at most 64 characters, character by character |
| PineLexer.Tokens | src/tidelab/pine_subset.py:41-52 | The loop over a line returns its nonblank pieces or an unsupported character |
| PineSubset.StripComment | src/tidelab/pine_subset.py:99-107 | An accepted line is returned up to its first `//` outside quotes and whole without one, so no unprotected `//` is left in it; it is refused exactly when that first comment is a directive |
| PineSubset.StripIdempotent | src/tidelab/pine_subset.py:99-107 | A line that was stripped is stripped to itself |
| PineSubset.ReadStatements | src/tidelab/pine_subset.py:95-111 | The statements of a source, blank lines dropped |
| PineSubset.ReadDeclarations | src/tidelab/pine_subset.py:123-133 | The alias loop: the symbol table after all declarations, or the first refusal |
| PineSubset.ImportLines | src/tidelab/pine_subset.py:89-151 | The whole normalization to eight lines, or the first refusal |
| PineSubset.CompilePine | src/tidelab/pine_subset.py:154-228 | The compiler from decoded text under the import grammar: encoding, version line, import, and the eight lines read as a rule, or the first refusal |

## Left out

- Decimal precision limits (28 and 50 digits, C# decimal overflow) and the 1e-20 tolerance: arithmetic is exact and the tolerance is zero.
- The textual form of decimals: amounts are compared by value, so a re-sent execution written with other trailing zeros counts as unchanged; the eight-decimal exponent checks are read as a whole number of units.
- The rounding of the smoothed loss to ten digits before it is compared with zero is modelled as rounding of an exact value; the digits printed in trace rows are not.
- SQLite, file systems, locks, JSON text and subprocesses are abstract tables, atomic steps and a single holder; torn file writes are outside the recovery claims.
- Registry: the order of job rows in a summary is taken to be index order, and access grants (`research_access`) are independent of batches and not modelled.
- HistoricalBatch.RecoverWithoutAbort: compares job outcomes, attempt verdicts, status and summary, not the closing time and the output digest, which differ because only the uninterrupted run writes its timing file.
- Batch plans, descriptors, packages on disk and market reads: they enter as the parsed plan, what the package validator makes of each package, and the evaluation of each item; batch and attempt identifiers are assumed fresh, as the program draws them at random.
- H1 review messages: the review is modelled as accepting or rejecting, not by which message it raises; unequal-offset timestamps are not modelled.
- `TideLabH1ConservativeExecution.Decide`, which classifies one quote by cases, is not modelled.
- Paper proposals and reports are records of parsed values; unparsable JSON enters only as a missing late report.
- Delivery: a missing ledger file (the program stops with an assertion) is not modelled; the ledger starts with at least one execution.
- LowVol: the volatility rank (logarithm and square root) is an arbitrary selected market, and monthly signals are any increasing hours more than two apart; the final decision text of the study is left out.
- Expression: calendar slots count hours from a Monday midnight instead of dates.
- PackageReplay: high, low and readiness columns of a trace row are copies of inputs and are not in the row.
- Pine grammars 1 and 2, record binding, byte decoding and the size limit; the import grammar starts from decoded text.
- LEAN, NUnit, NautilusTrader, exchange network code and the fixed-constant fixtures (`lean_paper_join.py`, the correction, workflow and snapshot probes) are not part of this model.
- `strategy_intake.py`, `synthetic_batch_ledger.py`, `okx_archive.py`, `universe_coverage.py`, `historical_input.py`, private-trial bindings and command lines are not modelled.
