# A verified model of the runner proxy's scaler and adaptive feedback loop

The program listens to a GitHub runner scale set, starts one Docker container per assigned job with limits taken from
a resource profile, and, when adaptive scaling is on, adjusts those limits from the recorded usage of earlier runs of
the same job. This project models the two parts that decide what happens and proves what they promise:

* **The scaler as a state machine over a Docker world** (`ScalerModel.dfy`, `Scaler.dfy`, `Provisioning.dfy`,
  `RunnerStore.dfy`). Every answer of the environment (the server, the runner-configuration service, each Docker call,
  the collector, the database, the iteration order of a Go map) is a parameter, so each statement about runs holds for
  all of them. The objects that the program updates in place are classes: the runner store with its heap records,
  Docker, the provisioner, the metrics table, the configuration and the scaler. Each method is proved equal to a
  function on an abstract state, and the run-level results are about those functions.
* **The feedback loop** (`Decimal.dfy`, `Quantities.dfy`, `Adjustment.dfy`, `Feedback.dfy`, `Flapping.dfy`,
  `ClosedLoop.dfy`, `Convergence.dfy`). An allocation is computed from history, printed, parsed by the runner to
  become a limit, parsed again for the metrics row, and that row drives the next allocation.

`Configuration.dfy` and `Classification.dfy` supply what both rely on: what validation guarantees, the sorted profiles,
and deterministic routing.

## How to read it

| file | contents |
|---|---|
| `Strings.dfy`, `Decimal.dfy` | string order and sorting; numerals, rounding, fixed-point printing and trimming |
| `Quantities.dfy` | both parsers and both printers of CPU and memory, the printable grid, round trips |
| `Configuration.dfy`, `Classification.dfy` | validation, profile order, first-match routing |
| `MetricsStore.dfy` | the table of runs and its newest-first window |
| `Adjustment.dfy` | one adjustment: averages, thresholds, clamps; monotonicity, separation, exact bounds |
| `Feedback.dfy`, `Flapping.dfy` | the adjustment iterated: convergence with overlapping runs, and when it flaps |
| `RunnerStore.dfy` | the store of tracked runners, what concurrent readers can see of it |
| `Provisioning.dfy` | Docker and the provisioner |
| `ScalerModel.dfy`, `Scaler.dfy` | the state machine; the program proved against it |
| `Conservation.dfy`, `Grants.dfy`, `Invariants.dfy`, `Runs.dfy` | the invariant, its induction over runs, the run-level results |
| `Capacity.dfy`, `PendingHistory.dfy`, `Acknowledgement.dfy`, `Reconciliation.dfy`, `Stalemate.dfy`, `Names.dfy`, `Shutdown.dfy` | further properties of runs and of single handlers |
| `Operations.dfy`, `Series.dfy`, `Rounds.dfy`, `Messages.dfy` | what each operation, each attempt of a round and each job of a message comes to, and polls over runs |
| `JobHistory.dfy`, `ClosedLoop.dfy` | the feedback loop of one job as it runs through the scaler when nothing fails |
| `Convergence.dfy` | convergence over arbitrary runs of the scaler |
| `MissingCeilings.dfy` | what becomes of jobs whose ceilings are not configured |
| `ShippedConfiguration.dfy` | the repository's `config.yaml` meets the conditions of the results |

What the functions of the state machine do is also stated without referring to their definitions: the members named
`...Exactly`, and the results of `Operations.dfy`, `Rounds.dfy` and `Messages.dfy`, write out conditions, names, fields
and recorded rows.

A store method is one critical section. `views` lists every content the store has had between critical sections, and a
lookup by the proxy reads one of them; this is how interleaving with the proxy is modelled. Runs of one job may overlap:
a run can be recorded after others that were provisioned later. `basis` remembers how many rows there were when the
history for a container was read, and the run-level convergence results are for runs whose histories lag by at most a
given number of the job's rows.

## What the code does where its documents say otherwise

* Profiles are matched in ascending order of name (`internal/config/config.go:150`), not in file order
  (`README.md:98`).
* A profile's ceiling counts only when it is lower than the global one (`internal/metrics/adjuster.go:68-77`); the
  design document says it overrides it.
* Within the thresholds the last allocation is kept (`internal/metrics/adjuster.go:79`); the design document says the
  baseline is returned.

## Properties that hold only under a condition

* *Bounds.* Printing rounds to 0.01 CPU, so an allocation can exceed its ceiling: a profile limited to 1.016 CPUs is
  given 1.02 (`Adjustment.RoundingBreaksCeiling`). `Adjustment.BoundsExact` gives the exact condition.
* *Ceilings left out of the configuration.* Validation does not ask for `adaptive.max_cpus` and `adaptive.max_memory`.
  Unset they count as zero, and a ceiling of the profile does not help, since zero is the lower one. Once a job has a
  full window, a missing memory ceiling means that no runner is started for it any more
  (`MissingCeilings.UnsetMemoryStartsNothing`), and a missing CPU ceiling, with a memory ceiling set, that its
  container gets no CPU limit at all (`MissingCeilings.UnsetCPUIsUnlimited`). `Adjustment.MemoryAcceptedExactly` and
  `Adjustment.CPULimitedExactly` give the exact conditions.
* *Flapping.* For amounts that are not printed, flapping is excluded exactly when the lower threshold times the scale
  factor does not exceed the upper threshold (`Flapping.NeverFlapsExactly`). The program prints every allocation. For
  it that condition is necessary: when it fails, there are quantity strings and a demand with which the program goes
  up and down forever (`Flapping.TwoCycle`). It is not sufficient: thresholds 0.8 and 0.615 with factor 1.3 meet it,
  and the program allocates 1.33 and 1.02 CPUs in turn (`Flapping.PrintingFlaps`). With room for the rounding it is
  sufficient (`Flapping.CalmSettles`). For given bounds, rounding included, `Flapping.FlapsExactly` and
  `Flapping.OneWayExactly` give the exact condition, under which the allocation also settles
  (`Flapping.SteadySettles`).
* *Monotonicity.* More use never lowers an allocation unless the newest allocation is negative; then it is the other
  way round (`Adjustment.AdjustMonotone`).
* *Attribution.* A completed run is filed under the job its runner was started for (`internal/scaler/scaler.go:334`),
  although the server may run another job on it. `Runs.AttributedExactly` says when the name is right, and
  `ClosedLoop.MisfiledRun` is a run where it is not.
* *Reconciliation* fills the gap exactly when the names of its candidates are free and distinct (`Rounds.RoundFills`;
  over runs, `Messages.PollReconciles`). They are not in an ordinary case: the first candidates are the pending jobs,
  and a job stays pending until it starts, while its own runner already has the name. A round that lacks no more
  runners than such jobs are pending changes nothing (`Stalemate.RoundStalls`), and so it stays
  (`Stalemate.StaysStalled`): after one assignment, a server that reports two assigned jobs never gets a second runner
  while the first job has not started (`Stalemate.SecondRunnerNeverStarts`).
* *Container names* identify profile and job exactly when no profile name followed by a dash begins another
  (`Names.InjectiveExactly`).
* *The history window* is the last runs, newest first, exactly when the database clock did not step back between two
  rows of the job (`MetricsStore.WindowIsLastRuns`).

## Model

| member | source | states |
|---|---|---|
| Runs.ContainersConserved | internal/runner/runner.go:75-151 | After any run, over any Docker world and failures, each existing container is tracked under its own name, was there before, or is in exactly one leak set; none that was there before is gone |
| Runs.StoppedOnce | internal/scaler/scaler.go:354-362 | Over any run, stop is called on no container twice and on none that is still tracked |
| Runs.ProvisionKeepsOthers | internal/scaler/scaler.go:245-259 | Provisioning never overwrites a tracked runner, whatever Docker answers |
| Runs.LifecycleObserved | internal/state/state.go:47-150 | Over all store contents between critical sections of any run, a container keeps one name, its status only advances, and it never returns once gone; between polls no completed runner is stored |
| Runs.StatusSteps | internal/scaler/scaler.go:277-362 | A start makes exactly the named runner busy; a completion makes it visibly completed and then gone, in two critical sections, and touches no other runner |
| Runs.CompletionRetires | internal/scaler/scaler.go:354-362 | A completion calls stop once, on that runner's container, removes exactly it, or leaks it when the removal fails |
| Runs.EverythingRouted | internal/scaler/scaler.go:191-217 | In every reachable state pending jobs and tracked runners carry the least matching profile of their job, runner names encode profile and job, and only reconciliation placeholders may differ, with the default profile |
| Runs.LimitsWithinBounds | internal/metrics/adjuster.go:65-116 | Every container ever created in a run has CPU and memory limits between its profile's baseline and effective ceiling, whenever these bounds are enforceable |
| Runs.RowsMatchLimits | internal/scaler/scaler.go:331-340 | Every row recorded in a run carries the job name, the profile and the limits its container was created with |
| Runs.RowsWereGranted | internal/scaler/scaler.go:226-241 | The allocation in every recorded row was chosen from the rows there were when its container's history was read, earlier in the run, or is the baseline |
| Runs.AttributedExactly | internal/scaler/scaler.go:333-341 | A row is filed under the name of the job that completed if and only if its container was created for a job of that name |
| Runs.BaselineUntilWindow | internal/scaler/scaler.go:227-241 | The baseline strings are used verbatim until exactly a window of rows of the job exists; from then on the history is a full, nonempty window and the printed next allocation is used; without scaling or a readable history the baseline is |
| Operations.AttemptRequests | internal/scaler/scaler.go:215-224 | An attempt requests exactly one runner configuration, under the name that joins profile and job ID; if it cannot be made, nothing else changes |
| Operations.AttemptRunners | internal/scaler/scaler.go:215-269 | An attempt changes the runners if and only if the configuration was made, both strings are accepted, the requested name is free, and create, start and inspect succeed; the runner is then idle under that name with all its fields |
| Operations.AttemptContainers | internal/runner/runner.go:65-119 | A container is created if and only if this holds up to its creation, with the limits the strings stand for; it goes again only if it does not start and can be removed |
| Operations.AssignExactly | internal/scaler/scaler.go:190-213 | The job is pending with the routed profile, which exists; if the configuration cannot be made, only the pending map and the log change |
| Operations.StartExactly | internal/scaler/scaler.go:271-283 | Exactly the named runner becomes busy, if tracked, and the job is no longer pending |
| Operations.CompleteExactly | internal/scaler/scaler.go:292-363 | For a tracked runner of any status and any stop answer, exactly one row is appended if scaling is on, the use was measured and the insert succeeds, with the job name, profile and strings of the runner and this use, and otherwise none; for an unknown or empty name only the pending map changes |
| Messages.TurnExactly | internal/scaler/scaler.go:107-186 | A poll carries the last ID and the maximum less the tracked runners; without a message nothing but the log changes, and a message is handled after it is acknowledged |
| Messages.JobByJob | internal/scaler/scaler.go:160-179 | A message without a total handles each assignment, then each start, then each completion, in order and with its own answers |
| Messages.AssignmentsRequested | internal/scaler/scaler.go:160-168 | Every assignment of a message requests a configuration for a runner of its routed profile, in order, whatever fails |
| Messages.AssignedServed | internal/scaler/scaler.go:160-168 | Each assigned job whose own calls succeed has its container, and, if the name was free, its runner with the limits chosen for it, whatever is answered about the others |
| Messages.OnlyAssigned | internal/scaler/scaler.go:160-168 | After the assignments earlier runners are untouched, and each new runner is that of an assigned job whose calls all succeeded |
| Messages.StatusAfter | internal/scaler/scaler.go:170-186 | After the whole message a runner tracked when the assignments were done is stopped if and only if the message reports it completed, then tracked no more; otherwise it is there, busy if the message reports it started, and else as it was |
| Messages.CompletedServed | internal/scaler/scaler.go:175-179 | The first completion that names a tracked runner stops it, removes or leaks its container, and records exactly one row for it exactly if scaling is on, the use was measured and the insert succeeds, whatever is answered about the others and whether or not its start is in the same message |
| Rounds.RoundRequests | internal/scaler/scaler.go:369-429 | Whatever fails, reconciliation requests exactly as many runners as are missing after the message's jobs: first for the pending jobs in iteration order, then numbered placeholders of the default profile; when none is missing nothing happens |
| Rounds.RoundServes | internal/scaler/scaler.go:394-428 | Each attempt of a round whose own calls succeed leaves its container, and, if the name was free, its runner, whatever the other attempts come to |
| Rounds.OnlyMissing | internal/scaler/scaler.go:394-428 | A round leaves tracked runners untouched, and each new runner is that of an attempt of the round whose calls all succeeded |
| Rounds.RoundFills | internal/scaler/scaler.go:369-429 | After a message's jobs, if every attempt of the round succeeds, the reported total is reached if and only if there were not more runners and the missing ones' names are free and pairwise distinct; the new names are exactly the free ones |
| Rounds.RoundServesPending | internal/scaler/scaler.go:388-428 | If at least as many runners are missing as jobs are pending, every pending job then has a container under its runner's name |
| Messages.PollReconciles | internal/scaler/scaler.go:96-188 | Both hold after any run: a polled message reconciles the state that its jobs alone would have led to |
| Messages.QuietPollReconciles | internal/scaler/scaler.go:181-186 | A polled message without jobs reconciles the state there was before it |
| Invariants.RunKeeps | internal/scaler/scaler.go:96-188 | Conservation, routing, limits and records hold after every poll of every run |
| Invariants.HandleKeeps | internal/scaler/scaler.go:160-186 | One message keeps the whole invariant, before and after reconciliation |
| Invariants.AssignKeeps | internal/scaler/scaler.go:190-213 | The profile lookup never fails, and an assignment keeps the invariant whatever fails in it |
| Invariants.CompleteKeeps | internal/scaler/scaler.go:292-363 | A completion keeps the invariant whatever fails in it |
| Invariants.RecordBooks | internal/scaler/scaler.go:331-340 | The row written at completion agrees with the limits the runner's container was started with |
| Invariants.OutcomeEnforces | internal/runner/runner.go:65-105 | A created container has the limits the runner parsed, which are what the metrics parsers read from the same strings |
| Invariants.EffectiveWithin | internal/scaler/scaler.go:226-241 | Whatever strings are chosen, adjusted or baseline, the limit the runner parses from them is within the profile's bounds |
| Conservation.LaunchAccounted | internal/runner/runner.go:75-120 | Any outcome of starting a runner leaves every container in exactly one of the five places |
| Conservation.RetireAccounted | internal/runner/runner.go:139-151 | So does stopping one, whether or not the removal succeeds |
| Conservation.FreeNameUntracked | internal/scaler/scaler.go:245-259 | A container name that Docker accepts is not the name of a tracked runner |
| RunnerStore.LifecycleContinues | internal/state/state.go:47-118 | A critical section that keeps, advances, drops or freshly adds runners extends an orderly lifecycle |
| RunnerStore.Store.AddRunner | internal/state/state.go:47-53 | The caller's record itself is stored, idle, under its name; every other record keeps its value |
| RunnerStore.Store.MarkBusy | internal/state/state.go:56-63 | Exactly the named runner becomes busy, in place; nothing happens for an unknown name |
| RunnerStore.Store.MarkCompleted | internal/state/state.go:66-73 | Exactly the named runner becomes completed, in place |
| RunnerStore.Store.GetByName | internal/state/state.go:76-85 | A fresh copy equal to the stored record, or nothing exactly when the name is unknown |
| RunnerStore.Store.GetByContainerIP | internal/state/state.go:88-98 | A fresh copy of a stored runner with the address, or nothing exactly when there is none |
| RunnerStore.Store.GetByJobID | internal/state/state.go:101-111 | A fresh copy of a stored runner of the job, or nothing exactly when there is none |
| RunnerStore.Store.Remove | internal/state/state.go:114-118 | Exactly the named runner is forgotten |
| RunnerStore.Store.All | internal/state/state.go:121-130 | Fresh copies of all stored runners, each once |
| RunnerStore.Store.Count | internal/state/state.go:133-137 | The number of tracked runners |
| RunnerStore.Store.ActiveCount | internal/state/state.go:140-150 | The number of runners that are not completed |
| RunnerStore.MutateCopy | internal/state/state.go:76-85 | Overwriting every field of a looked-up copy leaves the store unchanged |
| Provisioning.Docker.ContainerCreate | internal/runner/runner.go:75-108 | A container with the given limits under a fresh ID, unless the call fails or the name is taken, when nothing changes |
| Provisioning.Provisioner.Start | internal/runner/runner.go:65-136 | Which container exists afterwards for every combination of parse, create, start, force-remove and inspect results |
| Provisioning.StartLeavesBehind | internal/runner/runner.go:65-136 | Exactly when a runner is up after an attempt, exactly when the attempt leaves a container behind without one, and what it changes in Docker and in the leak sets |
| Provisioning.Provisioner.Stop | internal/runner/runner.go:139-151 | A failed stop does not prevent the forced removal; a failed removal leaves the container and is reported |
| Provisioning.Provisioner.StopEvery | internal/runner/runner.go:154-160 | All listed containers are stopped in order, whatever fails on the way |
| Shutdown.StopAllExactly | internal/runner/runner.go:154-160 | For any answers, stop is called on every listed container in order, a container is gone if and only if a removal of it succeeded, and one that remains is a leak |
| Shutdown.CleanupExactly | cmd/all/main.go:219-230 | For any answers, what remains after the cleanup is what was not tracked and the tracked containers that could not be removed |
| Shutdown.OnlyLeaksRemain | cmd/all/main.go:219-230 | When removals succeed, the cleanup leaves exactly the containers that were there before and those leaked earlier |
| Scaler.Cleanup | cmd/all/main.go:219-230 | The cleanup stops the container of every tracked runner, each once |
| Scaler.Configure | internal/config/config.go:67-84 | Loading succeeds exactly for valid settings with a token, and yields the classifier of the sorted profiles |
| Scaler.Scaler.RunLoop | internal/scaler/scaler.go:96-188 | The loop over objects updated in place computes the state machine's run |
| Scaler.Scaler.TakeTurn | internal/scaler/scaler.go:107-186 | One iteration: poll with the last ID and free capacity, acknowledge, then handle the message |
| Scaler.Scaler.HandleMessage | internal/scaler/scaler.go:160-186 | Assignments, starts, completions, then reconciliation; refines the state machine, whose messages JobByJob and RoundRequests determine |
| Scaler.Scaler.HandleJobAssigned | internal/scaler/scaler.go:190-213 | The job becomes pending before provisioning is attempted; refines the state machine |
| Scaler.Scaler.HandleJobStarted | internal/scaler/scaler.go:271-283 | The runner is marked busy and the job is no longer pending; refines the state machine |
| Scaler.Scaler.HandleJobCompleted | internal/scaler/scaler.go:292-363 | All early returns and failures of completion; refines the step that CompleteExactly determines |
| Scaler.Scaler.ProvisionRunner | internal/scaler/scaler.go:215-269 | All early returns and failures of provisioning, and which of them is reported as success; refines the step that AttemptRunners determines |
| Scaler.Scaler.ReconcileRunnerCount | internal/scaler/scaler.go:369-429 | The list is built in any iteration order of the pending map, then one attempt per missing runner; refines the state machine |
| Scaler.Scaler.EffectiveResources | internal/scaler/scaler.go:226-242 | Baseline when scaling is off or the history cannot be read, the adjusted strings otherwise |
| Capacity.HandleCount | internal/scaler/scaler.go:160-186 | One message takes n tracked runners to at most the larger of n plus the assigned jobs and the reported total |
| Capacity.ReconcileCount | internal/scaler/scaler.go:369-377 | Reconciliation never exceeds the reported total, and changes nothing without a deficit |
| Capacity.RunCount | internal/scaler/scaler.go:96-188 | Against a server that respects the advertised capacity, tracked runners never exceed the maximum, neither between polls nor in any store content visible while a message is handled |
| Capacity.AdvertisedCapacity | internal/scaler/scaler.go:107-119 | Each poll advertises the maximum less all tracked runners, never below zero |
| PendingHistory.PendingIsHistory | internal/scaler/scaler.go:160-179 | A job is pending under a name exactly when that is its latest assignment and no start or completion followed, whether or not provisioning succeeded |
| Acknowledgement.RunOrders | internal/scaler/scaler.go:119-158 | Deletions are attempted for exactly the received IDs in order, each before any provisioning for its message, and every poll carries the ID processed last |
| Acknowledgement.ProcessedOnce | internal/scaler/scaler.go:97-158 | If the server only returns larger IDs, no message is processed twice, even when deletions fail |
| Reconciliation.ReconcileExact | internal/scaler/scaler.go:369-429 | Without failures the tracked names become the old ones plus exactly the round's candidate names that were free, and earlier runners are untouched |
| Reconciliation.CandidatesArePending | internal/scaler/scaler.go:388-408 | For any iteration order the first candidates are the pending jobs, each exactly once |
| Reconciliation.PendingServed | internal/scaler/scaler.go:394-428 | When at least as many runners are missing as jobs are pending, each has a container under its name afterwards |
| Reconciliation.GapFilledExactly | internal/scaler/scaler.go:369-429 | A failure-free round ends with as many runners as assigned jobs if and only if its candidates' names are free and pairwise distinct |
| Reconciliation.UnambiguousFills | internal/scaler/scaler.go:394-408 | With unambiguous profile names, if and only if the names are free and no pending job has the profile and ID of a placeholder |
| Stalemate.RoundStalls | internal/scaler/scaler.go:388-428 | When every pending job's own runner name is taken and no more runners are missing than jobs are pending, a round starts nothing, whatever is answered |
| Stalemate.StaysStalled | internal/scaler/scaler.go:96-188 | It starts nothing either over any further messages without jobs that report no larger a gap |
| Stalemate.SecondRunnerNeverStarts | internal/scaler/scaler.go:365-429 | After one smoothly provisioned assignment, messages that report two assigned jobs leave one runner, however many come |
| Names.InjectiveExactly | internal/scaler/scaler.go:217 | Runner names determine profile and job, for arbitrary job IDs, if and only if no profile name followed by a dash begins another |
| ClosedLoop.OnceLeavesRow | internal/scaler/scaler.go:215-363 | Assigning, starting and completing a job leave runners and containers as they were and one more row, with the allocation chosen from the history before |
| ClosedLoop.CyclesAreRounds | internal/scaler/scaler.go:227-241 | Cycles of a job through the scaler produce, per resource, the history that iterating the numeric loop predicts |
| ClosedLoop.SmoothCycles | internal/scaler/scaler.go:215-363 | From a start with free names, accepted baselines and memory bounds of at least ten bytes, cycles without failing calls never fail: the runner accepts every string the adjuster makes on the way |
| ClosedLoop.ScalerReachesCeiling | internal/scaler/scaler.go:227-341 | From such a start, sustained overload brings a job's containers to the effective ceiling within an explicit number of cycles |
| ClosedLoop.ScalerReachesBaseline | internal/scaler/scaler.go:227-341 | From such a start, sustained low use brings them back to the baseline within a logarithmic number of cycles |
| ClosedLoop.MisfiledRun | internal/scaler/scaler.go:333-341 | When the server starts and completes another job on a runner, that job's use enters the history of the job the runner was created for, and not its own |
| Convergence.FollowedGrows | internal/scaler/scaler.go:96-188 | Over any run of the scaler, the rows of a job are the lane's rounds, each granted from a history that lacked at most the lag |
| Convergence.RunReachesCeiling | internal/scaler/scaler.go:96-188 | Over any run, with other jobs, failures, reconciliation and overlapping runs in between, and whatever was recorded before, enough recorded runs above the threshold bring the job's newest and next allocation to the effective ceiling |
| Convergence.RunReachesBaseline | internal/scaler/scaler.go:96-188 | Likewise runs below the lower threshold bring it to the baseline |
| Feedback.ChosenIsGrant | internal/metrics/adjuster.go:35-180 | The chosen string, printed and parsed back, is the grant of the numeric loop, before and after the window is full |
| Feedback.OverloadReachesCeiling | internal/metrics/adjuster.go:79-109 | For any window, overlapping runs and whatever was recorded before, use above the threshold in every new record reaches the effective ceiling within an explicit number of recorded runs, logarithmic to the base of the factor, rounding included, and the next run is granted it too |
| Feedback.OverloadRaises | internal/metrics/adjuster.go:82-84 | Each such round with a full window strictly raises an allocation below the ceiling |
| Feedback.IdlenessReachesBaseline | internal/metrics/adjuster.go:85-109 | Use below the lower threshold in every new record returns to the baseline within a number of recorded runs logarithmic in the allocation over the baseline, to the base of the factor, and the next run is granted it too |
| Flapping.CalmSettles | internal/metrics/adjuster.go:82-109 | Constant demand with window one: when the thresholds leave room for the rounding, the allocation moves in one direction only and is fixed after a number of runs logarithmic in the ceiling, exactly or with the rounding of printing |
| Flapping.NeverFlapsExactly | internal/config/config.go:128-137 | Amounts that are not printed never flap, for all bounds, demands and starts, if and only if the lower threshold times the factor is at most the upper one |
| Flapping.TwoCycle | internal/metrics/adjuster.go:35-180 | Otherwise, with window one, for either resource and every baseline from some size on, there are a ceiling string and a whole demand with which the program's printed allocations alternate |
| Flapping.PrintingFlaps | internal/metrics/adjuster.go:158-167 | The condition is not enough for printed allocations: settings that meet it, and a constant demand under which "1.33" and "1.02" alternate |
| Flapping.FlapsExactly | internal/metrics/adjuster.go:79-116 | With given bounds, printed or not, no whole demand and start makes a step back if and only if every allocation passes a comparison of thresholds before and after a rounded step |
| Flapping.OneWayExactly | internal/metrics/adjuster.go:79-116 | The same condition is exact for every whole demand and start moving the allocation in one direction only, for all runs |
| Flapping.SteadySettles | internal/metrics/adjuster.go:79-116 | Under it every whole demand and start settles within the same number of runs |
| Flapping.SingleRecordAdvances | internal/metrics/adjuster.go:35-116 | The printed next allocation for a one-record window is the step of the constant-demand loop |
| Adjustment.Adjust | internal/metrics/adjuster.go:35-117 | The loop over records with both resources interleaved computes, per resource, the rule on its own columns; it needs a nonempty history only when the window is full |
| Adjustment.AdjustMonotone | internal/metrics/adjuster.go:40-116 | More use in any record never lowers the printed allocation of that resource, whatever the other columns; with a negative newest allocation it never raises it |
| Adjustment.AdjustSeparable | internal/metrics/adjuster.go:40-116 | A resource's result does not depend on the other resource's columns |
| Adjustment.CeilingIsLower | internal/metrics/adjuster.go:65-77 | The effective ceiling is the lower one of the global and the profile's own ceiling |
| Adjustment.BoundsExact | internal/metrics/adjuster.go:65-116 | The printed allocation stays within floor and ceiling for every history if and only if the bounds are in order, the floor does not round down and the ceiling does not round up |
| Adjustment.EnforcedWithin | internal/metrics/adjuster.go:98-116 | With printable bounds the limit the runner enforces is within floor and ceiling for every history, short or full |
| Adjustment.MemoryAcceptedExactly | internal/runner/runner.go:237-265 | The runner accepts the adjusted memory of every history if and only if floor and ceiling are at least ten bytes, or the ceiling at most minus ten |
| Adjustment.RoundingBreaksCeiling | internal/metrics/adjuster.go:158-167 | A profile limited to "1.016" CPUs is given "1.02" after one run at 90 percent of "1": the enforced limit exceeds the ceiling |
| Adjustment.CPULimitedExactly | internal/runner/runner.go:228-235 | The enforced CPU limit is positive for every history if and only if neither the floor nor the ceiling prints as zero or less |
| MissingCeilings.UnsetMemoryStartsNothing | internal/metrics/adjuster.go:65-77 | Without a global memory ceiling no attempt starts a runner for a job with a full window, whatever Docker answers and whatever ceiling the profile has |
| MissingCeilings.UnsetCPUIsUnlimited | internal/metrics/adjuster.go:65-77 | Without a global CPU ceiling, but with a memory ceiling, the runner of such a job is started with a CPU limit of zero, which is none |
| Adjustment.AverageBounds | internal/metrics/adjuster.go:40-50 | An average is above, or below, a threshold that all records are above, or below |
| Adjustment.SingleAverage | internal/metrics/adjuster.go:40-50 | The average of one record is its utilisation |
| Adjustment.AverageOneMore | internal/metrics/adjuster.go:40-50 | One more record at the end changes the mean by its own utilisation in proportion: all records count the same |
| Adjustment.UtilisationExactly | internal/metrics/adjuster.go:42-47 | Use per allocation, and zero for a record without a positive allocation |
| Adjustment.AdjustedByCases | internal/metrics/adjuster.go:52-109 | The parsed result for each side of the thresholds: a step from the newest allocation, or from the baseline when none was recorded, then the bounds, of which the ceiling wins |
| Adjustment.OlderRecordsCount | internal/metrics/adjuster.go:40-50 | Settings and three records for which the result depends on the older ones, for both resources |
| Quantities.FormatParse | internal/metrics/adjuster.go:158-180 | Printing and reading back rounds CPU to 0.01 and truncates memory to a byte |
| Quantities.FormatParseMemory | internal/runner/runner.go:237-265 | What both parsers make of every printed number of bytes, including the ones the runner refuses |
| Quantities.PrintedIsEnforced | internal/runner/runner.go:228-265 | The runner reads every printed CPU quantity, and printed memory of ten bytes or more, as the printed one |
| Quantities.ParsersAgree | internal/metrics/adjuster.go:120-155 | Whatever the runner accepts, the metrics parsers truncate to the same integer |
| Quantities.CPUForms | internal/runner/runner.go:228-234 | Both CPU parsers read exactly the numerals, as billionths; anything else is an error to the runner and zero to the metrics |
| Quantities.PlainForms | internal/runner/runner.go:237-265 | What both memory parsers make of every string without a suffix, refusals included |
| Quantities.EveryDigitReads | internal/runner/runner.go:228-265 | Literal quantities with every digit, a point and suffixes, as both parsers read them |
| Quantities.TrimSpaceExactly | internal/runner/runner.go:238 | Trimming removes the white space at both ends and nothing else |
| Quantities.IsSpaceExactly | internal/runner/runner.go:238 | Which characters are white space, by code point |
| Quantities.BinarySuffixes | internal/runner/runner.go:250-256 | For both parsers, any numeral and either case, k is 1024 bytes and each further suffix 1024 of the one before |
| Quantities.PaddingIgnored | internal/runner/runner.go:238 | Both memory parsers ignore any white space before and after the string |
| Quantities.FormatCPUIsShort | internal/metrics/adjuster.go:158-167 | Printed CPU quantities have no trailing point, and no trailing zero after a point |
| Quantities.FormatCPUExactly | internal/metrics/adjuster.go:158-167 | The printed text is the sign, the whole part and as many decimals as the nearest hundredths need |
| Quantities.FormatMemoryExactly | internal/metrics/adjuster.go:170-180 | The printed suffix is decided by divisibility: gibibytes, else mebibytes, else plain bytes |
| Quantities.SnapMonotone | internal/metrics/adjuster.go:158-180 | Printing preserves order |
| Quantities.SnapOnGrid | internal/metrics/adjuster.go:158-180 | Printable quantities are printed exactly |
| Decimal.TrimPreservesValue | internal/metrics/adjuster.go:163-165 | Trimming trailing zeros and the point preserves the value, for any number of decimals and either sign |
| Decimal.ParseTrimmedFixed2 | internal/metrics/adjuster.go:163-166 | A trimmed two-decimal numeral reads back as the number rounded to hundredths |
| Decimal.HalfEvenIsNearest | internal/metrics/adjuster.go:163 | Rounding picks the nearest integer, and the even one of two |
| Decimal.ParseIntAgrees | internal/runner/runner.go:258-263 | Whatever integer parsing accepts, float parsing reads as the same number |
| Decimal.DigitsByName | internal/runner/runner.go:229 | Each of the ten digits stands for its position in "0123456789", read and printed |
| Decimal.NatOfLeading | internal/runner/runner.go:229 | Positional value: a leading digit counts as the power of ten of what follows |
| Decimal.ParseFloatExactly | internal/runner/runner.go:229 | Float parsing accepts exactly an optional sign, digits and an optional point with digits, as the number this denotes |
| Decimal.ParseIntExactly | internal/runner/runner.go:259 | Integer parsing accepts exactly an optional sign and digits within 64 bits |
| Decimal.ItoaExactly | internal/metrics/adjuster.go:161 | A printed integer is its canonical digits, with a minus exactly when negative |
| Decimal.TruncExactly | internal/runner/runner.go:233 | Conversion to an integer goes towards zero |
| MetricsStore.WindowIsLastRuns | internal/metrics/store.go:60-83 | Every window is the job's last rows, newest first, if and only if the clock did not step back between rows of that job |
| MetricsStore.RecordLeadsHistory | internal/metrics/store.go:46-83 | A new row leads its job's history and leaves other jobs' histories alone |
| MetricsStore.HistorySize | internal/metrics/store.go:60-83 | A window has the smaller of its limit and the number of the job's rows |
| MetricsStore.HistoryExactly | internal/metrics/store.go:60-83 | Row by row: distinct rows of the job by descending time and position; a row of the job is left out only when the limit is reached, and is then earlier than all that are not |
| MetricsStore.Store.Record | internal/metrics/store.go:46-56 | One row is appended with the next ID and the database's time, or nothing changes |
| MetricsStore.Store.GetHistory | internal/metrics/store.go:60-83 | The rows of the job, newest first, up to the limit |
| Configuration.Config.Validate | internal/config/config.go:86-143 | Accepts exactly the valid settings, and otherwise reports a fault before which every check passed |
| Configuration.Config.BuildOrderedProfiles | internal/config/config.go:145-159 | For every iteration order of the map, the profiles in ascending order of name |
| Configuration.ValidExactly | internal/config/config.go:86-143 | The accepted settings, condition by condition |
| Configuration.FirstFaultExactly | internal/config/config.go:86-143 | Which fault is reported: a missing required setting, else a profile's, else one of the remaining ones |
| Configuration.ValidMeans | internal/config/config.go:99-141 | What the scaler and the adjuster rely on |
| Strings.AscendingUnique | internal/config/config.go:150 | A set has one ascending enumeration, so the result does not depend on the map's order |
| Strings.AtMostExactly | internal/config/config.go:150 | The order of names by position: a prefix comes first, and otherwise the smaller character at the first difference decides |
| Strings.SortStrings | internal/config/config.go:150 | An ascending permutation |
| Classification.ClassifyRoutes | internal/classifier/classifier.go:25-34 | The classified profile is the least name with a matching pattern, or the default when none matches, and no other |
| Classification.ClassifyExactly | internal/classifier/classifier.go:25-34 | The same pattern by pattern: any pattern of a profile counts, the least name with one that matches is the result, and the default only if no pattern matches |
| Classification.ClassifyFindsProfile | internal/scaler/scaler.go:191-195 | From validated settings the classified profile exists |
| ShippedConfiguration.ShippedConfigurationFits | config.yaml:15-37 | The shipped profiles and thresholds meet the conditions for movement, enforceable bounds and no flapping |
| ShippedConfiguration.SevenRunsSuffice | config.yaml:15-37 | With the shipped settings seven climbs reach every ceiling, and seven descents every baseline |

## Left out

- The HTTP proxy itself: tunnelling and forwarding are network I/O; only its lookup by container address is modelled, as a reader between critical sections.
- Reading cgroup files: the collector returns arbitrary usage or fails.
- Image pull, network creation and gateway lookup of the provisioner, and the environment and command of a container.
- Sessions, scale-set creation, signals and command wiring; from the main program only the shutdown cleanup, after the loop has stopped, which the program itself does not wait for.
- Floating point: amounts are exact reals. A quantity exactly between two printable ones, such as 1.015 CPUs, is printed as the even one; the program prints whichever its binary value is nearer to. Rounding of `float64`, infinities, not-a-number, exponent, hexadecimal and underscore forms are not modelled, nor conversion of a float beyond 64 bits to an integer, which Go leaves to the implementation; the range check of integer parsing is.
- `sort.Strings` and the SQL engine: modelled by what they return (an ascending permutation; filter, order, limit), not by their algorithms; sorting is on values, not in place.
- `filepath.Match`: an arbitrary predicate on pattern and name.
- YAML decoding, environment variables and file reading; a profile left null in the file is not modelled.
- Times of runner records and the duration of a run: they are only logged or stored and decide nothing; the creation time of a metrics row, which orders the history, is modelled.
- Whether a container's process is running: containers exist or do not, and none goes away by itself.
- Locks: each store method is atomic, as its mutex makes it.
- Adjustment.MemoryAcceptedExactly: is for floors and ceilings within 64 bits, since Go leaves the conversion of larger floats to the implementation.
- Reason strings, log lines and the shortened IDs in them.
