# Verification model of dasm-burner

dasm-burner generates a topology of namespaces, services, deployments and routes, slices it into
waves, creates the waves on a cluster under an abort gate, shows progress as a pipeline of steps and
over an event bus, and watches nodes while it deletes. This project models that core in Dafny and
proves what holds over all its inputs, runs and interleavings. `dafny verify dfyconfig.toml` checks
everything.

The files follow the program:

| file | part of dasm-burner |
|---|---|
| `Common.dfy` | shared vocabulary on sequences |
| `Topology.dfy`, `Naming.dfy`, `Generator.dfy` | the generated graph, its names and labels |
| `BatchPlan.dfy` | the wave planner and the slicing |
| `KubeCluster.dfy`, `Readiness.dfy`, `Environment.dfy` | the reference cluster, waiting on it, and everything outside the program's control |
| `RunLimited.dfy` | the bounded-concurrency worker protocol as a step system |
| `AbortGate.dfy` | the health verdict and the grace period |
| `Waves.dfy`, `Lifecycle.dfy` | what a run may do, as a property of its trace and of its phase log |
| `Runner.dfy`, `Apply.dfy`, `EndToEnd.dfy` | the apply engine, and whole applies |
| `ExecSteps.dfy`, `Execute.dfy` | the step pipeline and the handler that drives it |
| `EventBus.dfy`, `BusSteps.dfy` | the event bus, call by call and interleaved |
| `Watcher.dfy` | the cleanup watcher |
| `Taints.dfy`, `NodeRules.dfy`, `Scheduling.dfy`, `Capacity.dfy` | avoided taints, the Kubernetes rules they are compiled to, and the capacity evaluator |
| `History.dfy` | the bounded run history |

How the parts are modelled:

- **Cluster.** Four maps, keyed like the reference cluster, with status fields on the objects.
- **Environment.** A clock that never goes back, a cancellation flag, and calls that may fail. A
  *faulty* environment may fail any call (also after it took effect), cancel at any point and
  report any health; a *faultless* one does none of that. Results that need no faults say so.
- **Concurrency.** `runLimited` is a step system whose scheduler, workers and canceller take any
  enabled step; the apply engine runs that system with an arbitrary step each time. The bus has a
  sequential class and a separate model of interleaved publishers and subscribers, in which
  number drawing, the locked section, every send to a bounded channel and every read from it are
  separate steps.
- **Traces.** The apply engine writes a ghost trace of begun and ended creates, waits and health
  verdicts, next to the phase log that the real engine writes. The contract of `Runner.ApplyRun.Run`
  is stated on both.

What the code does not do, although one might expect it, with the condition under which it does:

- Finished waves stay `running` until the final settle, so a failing run reports them as failed
  (`ExecSteps.FailedRunLeavesNothingRunning`).
- Numbers are drawn before the bus lock is taken, and events are sent after it is released. The log
  is in number order exactly if every publisher that logs holds the smallest number not yet logged
  (`BusSteps.LogOrderIff`). What a subscriber is sent is the log without gaps exactly if every send is
  of the smallest position due to it, none before that being still pending or dropped by a full
  channel (`BusSteps.SentInOrderIff`). Clients that are not too late can resume without loss or
  repetition exactly if what the ring holds is in number order and every channel is in step with the
  log (`BusSteps.ResumeIff`); either can fail (`BusSteps.NumbersCanBeLoggedOutOfOrder`,
  `BusSteps.SendsCanOvertake`). Publishers that run one at a time and channels that never fill up are
  enough (`BusSteps.OneAtATimeResumes`).
- `DetectNodeTransition` repeats the incident of a new node that is listed twice; `tick` does not
  (`Watcher.TwinAgreesExactly`).
- Avoid requirements are recognised by a text that two different ones can share when a key has
  `!=` in it; one of them is then lost (`Scheduling.TextsCanBeShared`). The compiled list is
  faithful exactly if every requirement comes first with its text, or its key is asked to be absent
  (`Scheduling.CompiledIsFaithfulIff`). No parsed list loses anything, because the parser ends a key
  at the first equals sign (`Capacity.ParsedListsAgree`); only a key written directly into a
  template can have the mark.
- A toleration of `node-role.kubernetes.io/infra`, or one with a value for an entry without one, is
  kept although the capacity evaluator counts what it tolerates as avoided (`Capacity.SlipsThroughIff`,
  `Capacity.InfraTolerationSlipsThrough`).
- Names of one kind collide exactly when the widest number does not fit before the cut at 63
  characters; validation does not bound the prefix (`Naming.NamesDistinctIff`).
- A dry-run record hides the real run with the same run id and template; the page itself records
  only real runs (`History.DryRunHidesRealRun`).
- The check of the failure counters at the end of creating a batch never fires: a failed create has
  already ended the batch (`Runner.ApplyRun.NoFailures` shows the counters are zero there).

And what the functions would do with inputs that the program does not give them:

- A run of zero waves leaves the reopened precheck step running
  (`ExecSteps.PrecheckStaysOpenWithoutWaves`). Validation asks for at least one namespace, so a
  generated graph has at least one wave (`Generator.AtLeastOneWave`).
- Merging into existing affinity turns a term without requirements, which selects nothing, into one
  that selects everything the avoid list allows (`Scheduling.MergedMeaning`,
  `Scheduling.MergePreservesMeaningIff`). Deployments are built with a fresh pod spec, which has no
  affinity and no tolerations.

## Model

| member | source | states |
|---|---|---|
| `Waves.BarrierMeaning` | internal/runner/runner.go:80-109 | in an ordered trace, no create of a batch begins or ends before a successful create of every object, the readiness wait and the health check of every earlier batch, and none of a service, deployment or route before every object of the kinds before it in its batch exists |
| `Waves.AtMostConc` | internal/runner/runner.go:240-351 | in every prefix of an ordered trace at most the configured number of creates, and at least one, is in flight |
| `Waves.WaitsAndVerdictsInTurn` | internal/runner/runner.go:159-194 | in an ordered trace a batch is waited for only when all its kinds are complete, and judged only when it was waited for |
| `Waves.EndsWereBegun` | internal/runner/runner.go:336-347 | no create ends that has not begun |
| `Waves.SecretsComeFirst` | internal/runner/runner.go:252-297 | with a pull secret, no create of a service, deployment or route begins or ends before every namespace of its batch has it |
| `Runner.ApplyRun.Run` | internal/runner/runner.go:29-139 | in every mode, under any faults, verdicts and cancellation: the barrier holds over the whole trace, nothing of a batch beyond the one it stopped in was touched in trace or cluster, all earlier batches are complete in both, the log is one a run may write, where the run waits, every completed batch is ready in the cluster, at most the configured number of creates is in flight in every prefix of the trace and none at the end, every verdict in the trace is that of one probe of the gate and what the probe history calls for, and the log tells of an abort in a batch exactly if the gate tripped; on success every report is full and the convergence is that of the cluster; without faults, with a passing verdict and with what exists being ready, it succeeds |
| `Runner.ApplyRun.RunBatch` | internal/runner/runner.go:146-196 | a batch that succeeds has all its creates, its wait and its verdict in the trace and, where the run waits, is ready in the cluster; one that fails leaves the log in that batch; its effect on each store is what its counters say, and no workload is left outside a namespace |
| `Runner.ApplyRun.RunBatches` | internal/runner/runner.go:86-108 | batch after batch, each only after the one before is complete, with a pause between every two, and where it stops |
| `Runner.ApplyRun.PauseAfter` | internal/runner/runner.go:90-107 | the pause lasts the configured delay, and after a warning or masters in trouble 45 seconds or twice the delay |
| `Runner.ApplyRun.RunRate` | internal/runner/runner.go:198-228 | the same guarantees as batch mode, and n namespaces take at least n - 1 intervals |
| `Runner.ApplyRun.RateTick` | internal/runner/runner.go:206-225 | after every tick but the last an interval has passed since it started |
| `Runner.ApplyRun.CreateBatch` | internal/runner/runner.go:230-303 | success means every kind is wholly created or found, no failure is counted and the cluster holds the whole batch; a dry run touches nothing |
| `Runner.ApplyRun.CreateObjects` | internal/runner/runner.go:252-302 | namespaces, then the pull secret, then services, deployments, routes, each kind only after the one before is complete |
| `Runner.ApplyRun.CopySecrets` | internal/runner/runner.go:263-267 | success means that every namespace of the batch has the secret |
| `Runner.ApplyRun.RunLimited` | internal/runner/runner.go:305-351 | at most the configured number of its calls is in flight at any point, and none when it returns; created, existing and failed add up to the calls that ended; nil exactly when all calls ended and none failed; the store grows by exactly what is counted as created when nothing fails |
| `Runner.ApplyRun.EndCall` | internal/runner/runner.go:245-255 | one ended call is one trace entry, one count and its effect on the store |
| `Runner.ApplyRun.CheckHealth` | internal/runner/runner.go:421-468 | where health is judged one probe is taken, the trace has its verdict and the log says it, and a longer pause is asked for exactly after an abort that the grace held back or masters in trouble; where it is not, no probe is taken |
| `Runner.ApplyRun.WaitForBatch` | internal/runner/runner.go:167-181 | success of a required wait means the batch is ready |
| `Runner.ApplyRun.Open` | internal/runner/runner.go:49-77 | a real apply passes only with a reachable cluster that serves routes; the baseline is waited for in full or logged as skipped |
| `Runner.ApplyRun.CheckCluster` | internal/runner/runner.go:353-374 | precheck passes only for a dry run or a cluster with the route API, and exactly then without faults |
| `Runner.ApplyRun.Close` | internal/runner/runner.go:111-138 | the reported convergence is that of the final cluster, or of the plan in a dry run; only a failing listing withholds it |
| `RunLimited.AtMostConcInFlight` | internal/runner/runner.go:319-351 | in every state of every interleaving at most conc calls are in flight, started calls lie in the spawned prefix, and none is in flight at return |
| `RunLimited.RoomToBegin` | internal/runner/runner.go:323-348 | a call can start only while fewer than conc are in flight |
| `RunLimited.EachCallOnce` | internal/runner/runner.go:327-348 | no call starts or ends twice |
| `RunLimited.ResultMeaning` | internal/runner/runner.go:319-351 | nil exactly when all n calls ran without error; a context error only after a cancellation before the last spawn; a call error is the error of a call that failed |
| `RunLimited.NoDeadlock` | internal/runner/runner.go:323-349 | with at least one token some step other than a cancellation is always open until return |
| `RunLimited.ZeroTokensBlock` | internal/runner/runner.go:240-243 | without a token it blocks, which is why concurrency below one is raised |
| `RunLimited.RunsAreBounded` | internal/runner/runner.go:319-351 | no schedule takes more than 8n + 3 steps |
| `RunLimited.StepKeepsInv` | internal/runner/runner.go:327-350 | every step of the spawner, a worker or the canceller keeps the invariant |
| `AbortGate.AsJudgedMore` | internal/runner/runner.go:421-468 | one more verdict that is what the history calls for keeps all verdicts so |
| `AbortGate.Evaluate` | internal/runner/abort.go:19-65 | the verdict lists exactly the breached signals and aborts exactly if there is one |
| `AbortGate.ReasonsMeaning` | internal/runner/abort.go:23-56 | reasons are the breached signals, once each, control plane first |
| `AbortGate.VerdictIsMonotone` | internal/runner/abort.go:19-65 | a worse cluster never turns an abort into a pass |
| `AbortGate.Gate.CheckHealth` | internal/runner/runner.go:417-468 | the gate aborts at a probe exactly when the history calls for it: the probe failed, or the verdict is abort and the grace is not positive or the unbroken streak ending here spans the effective grace |
| `AbortGate.BadProbeVerdict` | internal/runner/runner.go:444-463 | the one instant the gate remembers decides as the whole history would |
| `AbortGate.StreakGrows` | internal/runner/runner.go:438-463 | a bad probe prolongs the streak before it or starts one |
| `AbortGate.IsolatedBadProbeNeverAborts` | internal/runner/runner.go:451-457 | with positive grace a bad probe after a good one never aborts |
| `AbortGate.LongerGraceIsMoreTolerant` | internal/runner/runner.go:444-463 | raising the grace never adds an abort |
| `BatchPlan.AutoSizeIsBest` | internal/runner/batchplan.go:174-232 | the automatic size is the largest that keeps the preferred size, the object budget and the wave limit, or else the smallest within 24 waves |
| `BatchPlan.BestSizeIsUnique` | internal/runner/batchplan.go:205-232 | at most one size is best, so the description is tight |
| `BatchPlan.BestSizeWithinHardLimit` | internal/runner/batchplan.go:205-232 | waves never exceed 24, the density cap never enlarges a wave, and a budget is exceeded only if no size meets both limits |
| `BatchPlan.AutoSizeIsSmallestForPreferredWaves` | internal/runner/batchplan.go:174-203 | every breakpoint is the smallest size for its number of waves |
| `BatchPlan.CeilDivIsSmallest` | internal/runner/batchplan.go:234-250 | ceiling division is the smallest size that needs no more than the given waves |
| `BatchPlan.ObjectsPerNSMeaning` | internal/runner/batchplan.go:46-90 | the density estimate is at least one and exact for object pressure; `Generator.DensityIsExact` says that of the network is exact |
| `BatchPlan.PlanGuarantees` | internal/runner/batchplan.go:94-172 | what every plan of a non-empty graph guarantees, whatever was configured |
| `BatchPlan.PlanIsFixpoint` | internal/runner/batchplan.go:94-139 | planning again after the plan was written back gives the same size and count |
| `BatchPlan.SplitBatches` | internal/runner/safety.go:26-42 | the loop cuts exactly the consecutive slices |
| `BatchPlan.SplitByPlan` | internal/runner/batchplan.go:263-275 | single namespaces when sequential or rated, slices otherwise |
| `BatchPlan.SlicesCut` | internal/runner/safety.go:33-41 | slices concatenate back to the input and have between one and size elements |
| `BatchPlan.SlicesCount` | internal/runner/batchplan.go:234-242 | there are as many slices as counted waves |
| `BatchPlan.SplitMatchesPlan` | internal/runner/batchplan.go:263-275 | in every mode and for every configured size: exactly plan.Count non-empty slices that concatenate to the input |
| `BatchPlan.UiAndRunnerAgree` | internal/ui/execute.go:207-208 | the page's slices and the runner's are the same |
| `KubeCluster.Cluster.Create` | internal/kube/fake.go:61-118 | an object is stored under its key unless the key is taken, and the answer says which |
| `KubeCluster.Cluster.DeleteNamespace` | internal/kube/fake.go:124-144 | exactly the objects whose namespace field names it go with it |
| `KubeCluster.Cluster.ListManaged` | internal/kube/fake.go:187-219 | counts the objects labelled as managed and of the run |
| `KubeCluster.PctIsFull` | internal/kube/convergence.go:30-39 | a percentage is capped, and full exactly when nothing is missing |
| `KubeCluster.ConvergenceIsFull` | internal/kube/convergence.go:18-49 | overall convergence is 100 exactly when no desired count is short |
| `Readiness.SnapshotReady` | internal/kube/wait.go:70-112 | the counts are never more than what is ready and exactly that without faults, so they reach their totals only if every single object is ready |
| `Readiness.WaitReady` | internal/kube/wait.go:22-68 | success means every object of the batch is ready; without faults it is exactly that; cancellation never counts as success, and it gives up only on cancellation or after the whole timeout |
| `Readiness.HeldReadyIsReady` | internal/kube/wait.go:70-112 | readiness of a batch depends on what the cluster holds alone |
| `Readiness.ReadyStays` | internal/runner/runner.go:167-181 | a batch that is ready stays ready while later batches are created |
| `Apply.HeldGraphConverges` | internal/kube/convergence.go:18-49 | a cluster holding the graph, grown only by it, converges fully if what was under its keys before was its own |
| `Apply.ApplyConverges` | internal/runner/runner.go:115-138 | a successful faultless apply reports overall convergence 100 |
| `Apply.Reapply` | internal/runner/runner.go:230-317 | a second apply, under any faults, leaves the maps unchanged and creates nothing; if it succeeds it reports every object of every batch as existing; it succeeds without faults, with a passing verdict and a ready start |
| `Apply.Cleanup` | internal/runner/cleanup.go:41-76 | deletes exactly the namespaces of the run and what is in them |
| `Apply.CleanupUndoesGrowth` | internal/kube/fake.go:124-144 | deleting the run's namespaces takes back whatever a run created, finished or not, object for object |
| `Apply.Outcome` | internal/runner/runner.go:80-138 | however a run ended, the cluster has only grown by the graph, no workload is outside a namespace, and a graph that was there is untouched |
| `Apply.ApplyAndCleanup` | internal/runner/cleanup.go:41-76 | apply and clean up leave the cluster as it was, whether the apply succeeded, failed or was aborted |
| `EndToEnd.GenerateApplyCleanup` | internal/runner/runner.go:29-139 | a valid configuration whose names fit, on an empty healthy cluster: the apply succeeds, converges to 100, and cleanup empties the cluster |
| `ExecSteps.PlanSteps` | internal/ui/execute.go:350-392 | fixed steps around exactly one step per wave, in order |
| `ExecSteps.StepsTileTheGraph` | internal/ui/execute.go:356-371 | one step for every wave the runner emits, and their ranges tile 1..n |
| `ExecSteps.ExecRun.SetStep` | internal/ui/execute.go:840-862 | sets the status of that step and of no other |
| `ExecSteps.ExecRun.PassIfRunning` | internal/ui/execute.go:977-994 | passes a running step, skips a pending baseline |
| `ExecSteps.ExecRun.FailRunning` | internal/ui/execute.go:889-910 | fails the run and exactly the running steps |
| `ExecSteps.ExecRun.MapPhase` | internal/ui/execute.go:912-975 | what each phase does to every step |
| `ExecSteps.StatusFollowsProgress` | internal/ui/execute.go:912-975 | one log entry moves one step exactly as it moves the run's progress |
| `ExecSteps.FoldShowsProgress` | internal/ui/execute.go:912-994 | folding any log a run can write leaves every step with the status its progress says |
| `ExecSteps.SuccessfulRunClosesEveryStep` | internal/ui/execute.go:912-994 | after a finished run every step is passed, the baseline passed or skipped, although precheck was reopened |
| `ExecSteps.PrecheckStaysOpenWithoutWaves` | internal/ui/execute.go:914-925 | every step is closed exactly when there is at least one wave |
| `ExecSteps.FailedRunLeavesNothingRunning` | internal/ui/execute.go:889-910 | failing a run anywhere leaves no step running, all waves so far failed and everything later pending |
| `Execute.RunAndShow` | internal/ui/execute.go:610-655 | the actual run's log folds into closed steps on success, and into failed and pending ones on failure |
| `Execute.HandleExecute` | internal/ui/execute.go:202-276 | the same from the request on, with exactly as many steps as planned waves |
| `EventBus.EventBus.Publish` | internal/ui/bus.go:60-94 | appends one numbered event to the log and offers it to every subscriber; the ring holds the last events of the log |
| `EventBus.EventBus.Store` | internal/ui/bus.go:76-84 | one more slot of the ring, whatever the event's number |
| `EventBus.EventBus.Subscribe` | internal/ui/bus.go:98-110 | replay is the contiguous log suffix after what was seen or from the oldest event kept |
| `EventBus.EventBus.ReplayLocked` | internal/ui/bus.go:125-141 | walking the ring gives the events it holds that are newer than what the client saw, in log order, in whatever order their numbers were logged |
| `EventBus.NewerIsReplay` | internal/ui/bus.go:125-141 | with numbers in log order these are a contiguous suffix of the log |
| `EventBus.EventBus.Unsubscribe` | internal/ui/bus.go:113-122 | removes that subscriber and no other |
| `EventBus.EventBus.Receive` | internal/ui/events.go:97-112 | the client takes events in channel order |
| `EventBus.FanKeepsStreams` | internal/ui/bus.go:86-93 | offering an event keeps every subscriber's stream a part of the log in order |
| `EventBus.StoreKeepsSlots` | internal/ui/bus.go:78-84 | overwriting the oldest slot keeps the rest of the window |
| `EventBus.ClientNeverSeesTwice` | internal/ui/bus.go:60-141 | replay and live events together strictly increase and come from the log |
| `EventBus.ResumeContract` | internal/ui/bus.go:95-141 | if nothing was dropped, replay and live events are exactly the log from where the client left off, the contract of section 9.2.4 of the WHATWG HTML standard |
| `EventBus.ResumeIsGapFree` | internal/ui/bus.go:125-141 | nothing is missed exactly when the ring still reaches back to the last event seen |
| `BusSteps.StepKeepsInv` | internal/ui/bus.go:60-123 | every interleaved step keeps the exactly-once invariant |
| `BusSteps.ReplayedOrOfferedOnce` | internal/ui/bus.go:76-110 | under every interleaving an event logged before a subscriber joined reaches it by replay only, one logged after is offered once or still owed by exactly one publisher |
| `BusSteps.QuietMeansDelivered` | internal/ui/bus.go:76-110 | once publishers are idle every event since joining was offered exactly once |
| `BusSteps.LogOrderIff` | internal/ui/bus.go:69-84 | at the end of a run with no number left to log, the log is in number order, and then without gaps, exactly if every event logged had the smallest number held at that moment |
| `BusSteps.TakingTurnsIsSmallestFirst` | internal/ui/bus.go:69-84 | publishers that take turns log the smallest number first |
| `BusSteps.NumbersCanBeLoggedOutOfOrder` | internal/ui/bus.go:69-76 | a run that logs number two before number one |
| `BusSteps.SendsCanOvertake` | internal/ui/bus.go:85-93 | a run, in number order, that sends number two before number one |
| `BusSteps.OvertakenMeansLoss` | internal/ui/bus.go:85-93 | after it not everyone can resume |
| `BusSteps.SentInOrderIff` | internal/ui/bus.go:81-93 | over every run, what a subscriber was sent is the log from where it joined, without gaps, exactly if each send to it was of the smallest position due: nothing logged since it joined and before was still pending for it or had been dropped |
| `BusSteps.ReplayNeedsNumberOrder` | internal/ui/bus.go:125-141 | for every log, also one longer than the ring: going on after any event that is not too far back replays exactly the rest of the log exactly when what the ring holds was logged in number order |
| `BusSteps.TooLateToResume` | internal/ui/bus.go:125-141 | going on after an event whose successor the ring has dropped loses that one |
| `BusSteps.AlwaysResumesIff` | internal/ui/events.go:27-112 | with numbers in order, a client that leaves anywhere in its stream and comes back in time is replayed exactly what it was due and has not read, exactly if each event of its channel that is not too far back came when everything between joining and it had come |
| `BusSteps.ResumeIff` | internal/ui/bus.go:60-141 | in every state of every interleaving, everyone who is not too late can resume without loss or repetition exactly if the ring is in number order and every channel is in step with the log |
| `BusSteps.InTurnResumes` | internal/ui/bus.go:60-141 | a schedule that logs the smallest number and sends the smallest position due lets everyone resume who is not too late |
| `BusSteps.ResumeNeedsTurns` | internal/ui/bus.go:60-141 | as long as the ring has dropped one event at most, no other schedule does |
| `BusSteps.OneAtATimeResumes` | internal/ui/bus.go:60-141 | publishers that run one after another, with channels that are never full when offered to, let everyone resume |
| `Watcher.Watcher.Tick` | internal/cleanupwatch/watch.go:135-204 | over every sequence of ticks the state says what the whole history says: window, maxima, not-ready map, incidents of every node and of the cluster, and longest spell |
| `Watcher.Watcher.Snapshot` | internal/cleanupwatch/watch.go:98-117 | reports the maxima of the whole history and, each once, exactly the nodes that were ever not ready |
| `Watcher.Watcher.NotePressure` | internal/cleanupwatch/watch.go:182-203 | one incident for each reading of the cluster that got worse, and none of a node |
| `Watcher.Watcher.MarkNotReady` | internal/cleanupwatch/watch.go:155-165 | enters newly not-ready nodes with one incident each |
| `Watcher.Watcher.MeasureAndRecover` | internal/cleanupwatch/watch.go:166-181 | measures every spell that reaches the sample and closes those of recovered nodes, in any order |
| `Watcher.LongestOn` | internal/cleanupwatch/watch.go:155-181 | the recorded maximum is the longest spell of any node, closed or open, after one more sample |
| `Watcher.MaxNotReadyMeaning` | internal/cleanupwatch/watch.go:149-151 | the running maximum is the largest reading ever, also of samples that left the window |
| `Watcher.IncidentsAlternate` | internal/cleanupwatch/watch.go:157-181 | a node's incidents alternate, start with not-ready, and end with it exactly while it is down |
| `Watcher.DetectNodeTransition` | internal/cleanupwatch/watch.go:319-338 | the pure twin's map and incidents |
| `Watcher.TwinAgreesExactly` | internal/cleanupwatch/watch.go:319-338 | the twin's map is that of a tick, and its incidents agree exactly when no new node is listed twice |
| `Taints.ParseAvoidTaint` | internal/config/taints.go:34-60 | the parser follows the text form |
| `Taints.RoundTrip` | internal/config/taints.go:34-96 | parsing the printed result of any accepted text gives the same taint |
| `Taints.ParsedIffCanonical` | internal/config/taints.go:34-60 | which taints some text parses to |
| `Taints.PrintIsInjective` | internal/config/taints.go:85-96 | parsed taints with the same printed form are equal |
| `Taints.ParseAvoidTaints` | internal/config/taints.go:63-83 | remembering printed forms keeps exactly the distinct parsed taints |
| `Taints.DedupMeaning` | internal/config/taints.go:75-80 | each taint once, in the order of first occurrence |
| `Scheduling.FilterTolerations` | internal/topology/scheduling.go:45-65 | keeps exactly the tolerations no entry matches |
| `Scheduling.KeptMeaning` | internal/topology/scheduling.go:45-56 | an in-order subsequence with every allowed toleration as often as before |
| `Scheduling.KeptToleratesNoNamedTaint` | internal/topology/scheduling.go:43-65 | no kept toleration tolerates a taint the list names, by Kubernetes' rules |
| `Scheduling.MatchesIffToleratesNamed` | internal/config/taints.go:98-127 | every toleration of a taint the entry names is matched, and one with a key and a known operator is matched only then |
| `Scheduling.AvoidLabelExpressions` | internal/topology/scheduling.go:83-129 | the loop with its remembered texts computes the compiled list |
| `Scheduling.OnceMeaning` | internal/topology/scheduling.go:83-107 | kept are the requirements no earlier one shares its text with |
| `Scheduling.CompiledIsFaithfulIff` | internal/topology/scheduling.go:83-129 | the compiled list accepts the same labels as the avoid list exactly if every requirement asked for comes first with its text, or the absence of its key does |
| `Scheduling.MarkFreeLosesNothing` | internal/topology/scheduling.go:87-97 | nothing is lost when no key has `!=` in it |
| `Scheduling.ParsedIsMarkFree` | internal/config/taints.go:50-59 | no parsed list has such a key, and no list without exclamation marks |
| `Scheduling.SharedTextKeepsOne` | internal/topology/scheduling.go:87-97 | of two requirements sharing a text only one is kept, so nothing is lost only if the key of one of them is also asked to be absent |
| `Scheduling.TextsCanBeShared` | internal/topology/scheduling.go:87-97 | such lists exist |
| `Scheduling.AvoidTaintAffinity` | internal/topology/scheduling.go:69-81 | one term with the compiled list, never nothing |
| `Scheduling.MergeNodeAffinity` | internal/topology/scheduling.go:131-159 | the in-place merge computes the merged affinity |
| `Scheduling.MergedMeaning` | internal/topology/scheduling.go:131-159 | node by node: accepted by the avoid list, and by the old affinity unless that had a void term |
| `Scheduling.MergePreservesMeaningIff` | internal/topology/scheduling.go:131-159 | merging means both exactly if there was no void term; with one, exactly if the old affinity happened to accept all the avoid list allows, which is a condition on its meaning |
| `Scheduling.VoidTermsStartAccepting` | internal/topology/scheduling.go:145-158 | void terms selected nothing and accept an unlabelled node once merged |
| `Scheduling.PodSpec.ApplyScheduling` | internal/topology/scheduling.go:16-28 | filters the tolerations and merges the affinity, control plane always included |
| `Scheduling.ApplyingTwiceMeansOnce` | internal/topology/scheduling.go:16-28 | a second application changes no meaning |
| `Capacity.DensityNodeExcluded` | internal/kube/capacity.go:112-160 | the evaluator's judgement of a node |
| `Capacity.LabelsAgree` | internal/kube/capacity.go:113-143 | labels are excluded exactly if they fail something the avoid list asks for |
| `Capacity.VerdictsAgreeIff` | internal/kube/capacity.go:112-143 | compiled affinity and evaluator agree on all labels exactly if the avoid list loses no requirement to a shared text |
| `Capacity.MarkFreeVerdictsAgree` | internal/kube/capacity.go:112-143 | they agree on all labels when no key has `!=` in it |
| `Capacity.ParsedListsAgree` | internal/kube/capacity.go:112-160 | they agree on every node for every avoid list the parser yields |
| `Capacity.ExcludedMeaningIff` | internal/kube/capacity.go:112-160 | excluded are exactly the nodes a fresh pod's affinity rejects and those with an avoided or control-plane blocking taint; for all nodes exactly if no requirement is lost |
| `Capacity.SlipsThroughIff` | internal/kube/capacity.go:162-190 | exactly which kept tolerations tolerate a taint the evaluator reads as avoided |
| `Capacity.InfraTolerationSlipsThrough` | internal/config/taints.go:25-31 | with the default avoid list the toleration of the infra role label is one |
| `Capacity.EvaluateDensityCapacity` | internal/kube/capacity.go:33-71 | counts, slots, maximum and fit of the usable nodes |
| `Capacity.SlotsBounds` | internal/kube/capacity.go:46-66 | slots lie between one a worker and the largest node for each |
| `Capacity.AvoidingMoreNeverAddsSlots` | internal/kube/capacity.go:46-66 | a longer avoid list never adds a worker or a slot |
| `Naming.NamesDistinctIff` | internal/naming/naming.go:83-114 | whatever the suffixes, names 1..n of a kind are distinct exactly if n < 2 or the widest number fits before the cut (the label limit of section 2.3.4 of RFC 1035) |
| `Naming.NumberIsRecovered` | internal/naming/naming.go:83-114 | an uncut name gives its number back |
| `Naming.RunIDIsRecovered` | internal/kube/managed_info.go:40-46 | the run id is read back from every name, cut or not |
| `Naming.Factory.Name` | internal/naming/naming.go:84-91 | the name has the run id, the kind's prefix, the padded number and some suffix of the configured length |
| `Naming.Factory.Suffix` | internal/naming/naming.go:93-102 | the requested length of lower-case letters and digits |
| `Generator.Generate` | internal/topology/generator.go:54-102 | fails exactly on an invalid configuration; otherwise every namespace and pair is numbered, named and sized as configured, and the final count check never fires |
| `Generator.ItemsAreNumbered` | internal/topology/generator.go:77-96 | pairs are numbered 1, 2, ... through the whole graph |
| `Generator.CountsAreExact` | internal/config/validation.go:147-183 | namespaces, pairs, routes, deployments and pods are as many as the counts say |
| `Generator.KeysAreDistinctIff` | internal/topology/generator.go:77-96 | no two objects of a kind share a cluster key exactly if the widest namespace number fits before the cut, or there is one namespace, and within each namespace names of a kind differ |
| `Generator.KeysAreDistinct` | internal/topology/generator.go:77-96 | if all numbers fit, no two objects of a kind share a cluster key |
| `Generator.ServedPairByPair` | internal/topology/objects.go:28-46 | each service selects exactly the pods of its own deployment, and each deployment claims only its own, whatever the configured prefixes |
| `Generator.RoutedPairByPair` | internal/topology/objects.go:180-198 | each route targets exactly its own service if service numbers fit |
| `Generator.PairNumbersAreVisible` | internal/naming/naming.go:50 | the numbers of pairs fit below ten to the fiftieth |
| `Generator.DensityIsExact` | internal/runner/batchplan.go:62-74 | the planner's objects per namespace add up to the routes, services and pods of the graph |
| `Generator.StepsTileGeneratedGraph` | internal/ui/execute.go:356-371 | for every generated graph and planner setting: plan.Count wave steps, none empty, whose ranges tile its namespaces 1..n |
| `Generator.AtLeastOneWave` | internal/config/validation.go:22-24 | a generated graph is deployed in at least one wave |
| `History.RunHistory.RecordHistory` | internal/ui/history.go:54-72 | the list stays the last 200 of the unbounded one, keys unique, the new record last |
| `History.TruncationCommutes` | internal/ui/history.go:59-69 | truncating after every record or once at the end makes no difference |
| `History.MovedToEndIsLatest` | internal/ui/history.go:58-66 | moving to the end and keeping the last record of each run are the same |
| `History.LatestMeaning` | internal/ui/history.go:58-66 | which records are listed |
| `History.RunHistory.LastRealRun` | internal/ui/history.go:74-88 | the last listed real run of the template, none exactly if there is none |
| `History.RunHistory.RunsForTemplate` | internal/ui/history.go:90-103 | the listed real runs of the template in order |
| `History.DryRunHidesRealRun` | internal/ui/history.go:60-66 | a dry run that repeats a real run's key replaces it |

## Left out

- Go's integers, durations and instants are unbounded; wrap-around is not modelled.
- Names and prefixes are ASCII: `ToLower` on other letters, and the cut at 63 bytes inside one, are not modelled.
- The seed, its SHA-256 fingerprint and the random generator: the run id is any four hex characters, a suffix any text over the alphabet, so that equal seeds give equal names is not stated.
- Validation of enumerations, free text and object-pressure kinds is one flag of the configuration, and the per-kind counts of object pressure are not generated.
- Label key and value syntax, which an API server would check, is not modelled; requirements are judged as the scheduler would judge well-formed ones.
- Inter-pod affinity and the rest of a pod spec are not part of `PodSpec`; preferred terms are carried through unchanged.
- `AllocatablePods` takes the quantity as a number; parsing quantities is library code.
- KubeCluster.Cluster.ListManaged: counts objects, not the pods they ask for or have ready, which no modelled decision reads.
- Log messages, reasons, summaries and timestamps of steps.
- The interval of rate mode is a parameter, not computed from a floating-point rate.
- One tick of the clock passes between readiness polls, so that waiting ends.
- A nil configuration, graph or cluster is a flag, not a nil pointer.
- The object-pressure execution path, `abortForCleanup` and everything about kube-burner, Prometheus, HTTP, files and the front end.
- Apply.Cleanup: deletes on the reference cluster, where deleting neither fails nor takes time; waiting for termination, dry runs and failing deletes are not modelled.
- The live client and orphan reaping: the cluster is the reference cluster.
- The history is the list in memory; reading and writing its file, and a file that was edited by hand, are not modelled.
- The step model of the bus assumes that no channel is closed while a publisher still has to send to it, which the code does not ensure.
- The cluster and template filters of the event stream.
- Step ids are a datatype instead of strings such as `batch-3`.
- Naming.NumberIsRecovered: only for names that were not cut, because a cut name may end in the middle of its number.
