# Lumi Eggcracker: verified models

A Dafny model of the parts of the repository whose correctness depends on state, crashes and interleavings, with proofs
of what they promise. `dafny verify dfyconfig.toml` checks the whole project (Dafny 4.11).

What each group of files is about:

- **Human stop** (`StopStorage`, `HumanStop`, `StopLaws`, `StopRuns`, `StopTheorems`, `StopActions`,
  `StopCommands`, `StopObjects`). Two allocations, a World, a controller with generation and epoch fences, a cached
  observation, and a record on disk written through a pending file. `HumanStop` gives one function per method, on values; `StopObjects` holds the classes whose fields change
  in place, each method proved equal to its function. Runs interleave every action with I/O errors, process death inside
  a write, death between the commit and the World update, and reloads. `StopCommands` says what `command` does on raw
  principals and events, without the definitions of the model.
- **Admission store** (`Admission`, `AdmissionRuns`, `AdmissionBinding`, `AdmissionObjects`). Four file names
  and a writer lock, any number of controllers with stale caches, one file primitive per step. The class performs the same primitives in place, and is
  proved to be a run of that machine for every sequence of I/O outcomes.
- **Detector and replay** (`Detection`, `DetectionStreams`, `Replay`, `ReplayRuns`, `ReplayTheorems`, `ReplayObjects`).
  The online detector against a declarative reading of its stream, the nine arms compared, and the replay loop that
  drives detector, controller and World together.
- **Upgrade** (`Upgrade`, `UpgradeObjects`). A file tree, run records, backup and journal; every write and every
  recovery may be cut short anywhere.
- **Install and uninstall** (`Lifecycle`, `Install`, `Uninstall`). Targets, accounts and the two journals, with the same
  treatment of failures.
- **Small checkers** (`Receipt`, `DepthScan`, `ZipEnd`), each against an exact specification. `Json`, `Faults`,
  `NameOrder` and `Arithmetic` are shared: parsed JSON values, I/O outcomes with process death, `sorted` on names, and
  `max` and `min`.

Where the code and what its comments or documentation promise part ways, the model follows the code:

- `replay.py` raises inside the loop or the recovery when a recipe's delay exhausts simulated time, although such a delay
  passes the fixture checks. `ReplayTheorems.ReplayMeans` states exactly when.
- `native_demo.py:165-168` says the pending file stays fail-closed when the failure marker cannot be written. After the
  rename there is no pending file any more; `AdmissionRuns.UnmarkedFailure` gives the exact condition and
  `AdmissionRuns.UnmarkedReservation` a run.
- `native_demo.py:232-235` says the transition marker is kept when its cleanup is not durable, but the unlink comes
  first: where the cleanup raises, the marker is left exactly when the unlink itself failed
  (`AdmissionRuns.ClearRaises`, with both ways in `AdmissionRuns.ClearRaisesBothWays`).
- `mark_active` carries no generation, so the launcher of a launch that was stopped and cleared can bind to the next
  generation: `AdmissionBinding.LateBindCrossesGenerations` is a run that does it. A bind is for the generation that was
  reserved exactly when no reset committed in between (`AdmissionRuns.BindIsOwn`); a launcher that keeps the lock is safe
  (`AdmissionRuns.HeldLockKeepsGeneration`).
- `upgrade.py:463-464` says active legacy records were rejected before any mutation. `migrate_runs` converts records in
  the order of their names and stops at the first active one, so nothing is changed exactly when no v3 record comes
  before it (`UpgradeObjects.CutMigrationKeeps`, with a directory in `UpgradeObjects.CutMigrationExample`); the rollback
  undoes this.
- `install` removes its journal inside the `try`. If the unlink works and the directory sync after it fails, the handler
  takes down a complete install without a journal, and a crash there is covered by nothing. `Install.InstallFresh` says
  this happens in no other case, `Install.OrphanedInstall` shows one.
- `install` can forget what `useradd` made. If `useradd` fails or times out after it has written, or the lookup of the new
  user fails, what it made stays and the journal goes; if the lookup of its group fails, the group stays whenever
  `userdel` does not take it; after the failed sync above, whatever `userdel` and `groupdel` do not take.
  `Install.InstallFresh` says there is no other case; `Install.LostUserInstall`, `LateUserInstall` and `LostGroupInstall`
  show the first three.
- Recovery of an interrupted install removes a bare group of the product's name even if it was there before, exactly when
  there was no user of that name (`Install.RecoverInterrupted`, with a host in `Install.BareGroupRecovery`).
- The schema preflight raises `TypeError` over a list or object as `type` (`Receipt.Preflight` says when,
  `Receipt.UnhashableCrashes` shows a schema). It lets a null
  bound pass under any type: under a numeric type the bound has no effect, under another type no value is accepted, and
  without a type exactly the numbers are accepted as far as bounds go (`Receipt.NullBoundMeans`; bounds read as they
  should exactly when none stands under a type that is not numeric, `Receipt.BoundsReadExactly`). `_json_equal` confuses
  booleans with 0 and 1 inside containers, and exactly there (`Receipt.EqualMeans`).

## Model

| member | source | states |
|---|---|---|
| StopStorage.RefuseDuplicates | experiments/human_override/model.py:24-30 | the nested `pairs` hook refuses a document exactly when some object in it repeats a member name |
| StopStorage.Check | experiments/human_override/model.py:40-63 | the recursive check with its shared countdown of 4096 nodes accepts exactly the values that stay within the node, depth, string and integer limits, and spends one node per visit |
| StopStorage.BoundedJson | experiments/human_override/model.py:19-64 | accepts a document exactly when size, nodes, depth, strings, integers, leaf types and duplicate names are all within limits |
| StopStorage.LengthIsText | experiments/human_override/model.py:172-176 | the length the size limit is checked against is that of the text `json.dumps` writes, escapes and separators included |
| StopStorage.StorableIsBounded | experiments/human_override/model.py:172-175 | the encoding of every storable record stays under all `bounded_json` limits, so a write is never refused for its content |
| StopStorage.LoadsBack | experiments/human_override/model.py:133-147 | reloading the document written for any storable record gives back exactly that record (round trip through `_persist` and `__init__`) |
| StopStorage.LoadedFits | experiments/human_override/model.py:133-170 | nothing is loaded but records whose numbers are in range, whose latch excludes approval and whose audit is short, from a document of the expected schema within all limits |
| StopObjects.World.constructor | experiments/human_override/model.py:90-95 | a World starts with two fresh, distinct executions at tick 0 |
| StopObjects.World.Advance | experiments/human_override/model.py:97-100 | time moves by the given ticks or the call raises and nothing changes, exactly at the 1 000 000 000 bound |
| StopObjects.World.Effect | experiments/human_override/model.py:102-109 | an effect of a known kind is recorded exactly when the allocation runs (and, for export, is connected); an unknown kind raises |
| StopObjects.Controller.Create | experiments/human_override/model.py:119-132 | creation refuses an existing state file and otherwise exists only once the fresh record is on disk |
| StopObjects.Controller.Reopen | experiments/human_override/model.py:133-147 | a reload takes over the stored record, or comes up with storage marked unknown when the file is pending, missing or invalid |
| StopObjects.Controller.Persist | experiments/human_override/model.py:172-183 | the write protocol over state file and pending file, for every I/O error and every place the process may die |
| StopObjects.Controller.Commit | experiments/human_override/model.py:185-193 | memory follows the disk only after a completed write; a failed one marks storage unknown and drops the observations |
| StopObjects.Controller.Judge | experiments/human_override/model.py:220-251 | the row and outcome each of stop, reset, approve and start decides, with audit entry, ring bound and exhaustion |
| StopObjects.Controller.Execute | experiments/human_override/model.py:210-260 | an admitted command: refusals in order, verdict, commit, then the World follows |
| StopObjects.Controller.Command | experiments/human_override/model.py:195-260 | the whole `command`, from untyped event to reply, over disk, World and memory together |
| StopObjects.Controller.Enact | experiments/human_override/model.py:254-260 | what the World and the observation cache do after a commit |
| StopObjects.Controller.Status | experiments/human_override/model.py:300-316 | the report, with every fence on the cached observation |
| StopObjects.Controller.SetControl | experiments/human_override/model.py:262-272 | control changes drop approval and observation, and are committed or refused |
| StopObjects.Controller.Adapter | experiments/human_override/model.py:274-285 | execution ends only under a latch with control and matching generation |
| StopObjects.Controller.Observe | experiments/human_override/model.py:287-298 | a fresh observation is cached, or the old one is dropped |
| StopObjects.Controller.Replace | experiments/human_override/model.py:318-331 | a replacement commits generation + 1 before the World gets a fresh execution |
| StopRuns.PersistEffect | experiments/human_override/model.py:172-183 | a write changes the durable record all at once or not at all, and only an I/O fault can make it fail |
| StopRuns.NextLawful | experiments/human_override/model.py:195-331 | every step of controller, World, crash or reload keeps the laws of one allocation: launch guards, ends under a latch, verified reset, truthful observations, scopes that never go back |
| StopRuns.RunIsLawful | experiments/human_override/model.py:195-331 | so every run, with crashes between commit and World update and with reloads, is lawful for both allocations |
| StopLaws.LaunchesAreDisciplined | experiments/human_override/model.py:220-298 | between two launches of a lawful run lie, in order, a latch, the end of local and remote execution, a verified observation at that epoch, a reset and an approval |
| StopRuns.LaunchDiscipline | experiments/human_override/model.py:195-331 | launch discipline over every run with crashes, reloads and replacements, as changes of the durable record, the World and the observations |
| StopActions.StepActions | experiments/human_override/model.py:195-298 | which action made each change, and what it found: a latch by a human stop, its opening by a human reset, an approval by a human approve, a launch by a start of the human or the scheduler on an approved, controlled, unlatched row of the generation that stands idle, an end by an adapter call under latch and control for the generation that runs, a new observation by a sample of the present scope and tick |
| StopActions.LaunchDisciplineByActions | experiments/human_override/model.py:195-331 | launch discipline by actions: between two starts come, in order, a human stop, adapter calls that end local and then remote execution, an observation that verifies the stop at its epoch, a human reset and a human approve, although start never clears the approval |
| StopActions.StatusIsFresh | experiments/human_override/model.py:287-316 | whatever `status` reports was sampled by `observe` at most five ticks before, at the scope and under the control that still stand |
| StopCommands.GuestIsPowerless | experiments/human_override/model.py:195-219 | whatever a guest sends, under whatever fault, disk, World and memory stay as they are and the answer is a refusal |
| StopCommands.StrangersArePowerless | experiments/human_override/model.py:195-219 | so do all other principals, and a scheduler that asks for anything but a start |
| StopCommands.CommandMeans | experiments/human_override/model.py:195-260 | the table of `command` on raw principal and event fields: an in-scope, fresh event of one who may is done exactly where the row, the execution and the observation allow it and the write works; what it makes of row, execution and observations; denied it uses up its number only |
| StopCommands.DoneWasAsked | experiments/human_override/model.py:195-219 | nothing is answered OK that was not such an event |
| StopCommands.RefusedInOrder | experiments/human_override/model.py:195-219 | every other event changes nothing, and the answer names the first of the checks it fails, in their order |
| StopCommands.SampleLasts | experiments/human_override/model.py:287-316 | a sample is reported for exactly five ticks |
| StopCommands.AllowedMeansStart | experiments/human_override/model.py:236-316 | `status` says ALLOWED of an idle allocation exactly where a start would be possible, and REQUESTED exactly under a latch |
| StopTheorems.StatusTellsTruth | experiments/human_override/model.py:274-316 | in every reachable state `status` reports VERIFIED_STOPPED only when nothing executes and RUNNING only when something does, however old the cached entry |
| StopTheorems.RowStep | experiments/human_override/model.py:185-331 | the durable row of an allocation changes only by an admitted command on it, a control change or a replacement |
| StopTheorems.EffectFences | experiments/human_override/model.py:213-253 | a command that takes effect was issued for the durable scope with a new sequence number, which it uses up |
| StopTheorems.FencesOnward | experiments/human_override/model.py:220-331 | over any stretch of a run (generation, epoch) never decreases, and neither do sequence numbers within a generation |
| StopTheorems.AtMostOnce | experiments/human_override/model.py:213-253 | each (allocation, generation, principal) commits strictly increasing sequence numbers, across reloads and replacements |
| StopTheorems.StaleForever | experiments/human_override/model.py:213-215 | a command below the durable scope is refused by every later controller and changes nothing |
| StopTheorems.ReplayedForever | experiments/human_override/model.py:213-217 | so is a command whose sequence number is already used up in its generation |
| StopTheorems.FailedCommit | experiments/human_override/model.py:185-253 | a `command` whose commit fails changes neither the records in memory, nor the durable record, nor the World; without an I/O fault no commit fails |
| StopTheorems.FailedControl | experiments/human_override/model.py:262-272 | the same for `set_control`, whose failure drops every observation |
| StopTheorems.FailedReplacement | experiments/human_override/model.py:318-331 | the same for `replace_allocation` past its guards; refused by a guard it changes nothing |
| StopTheorems.AuditIsExact | experiments/human_override/model.py:248-251 | the stored audit is the last 64 outcomes committed in the generation and `dropped` counts the others until it saturates |
| AdmissionRuns.NoLostUpdate | experiments/counter_ai_v2/native_demo.py:412-459 | with any number of controllers and stale caches, the durable state changes only by a committing rename of the lock holder that applies its operation to the state durable at that moment |
| AdmissionRuns.ValidShapes | experiments/counter_ai_v2/native_demo.py:281-319 | the accepted states, shape by shape: no process, a reserved launch or a bound one; a reason exactly under the latch |
| AdmissionRuns.CommitMeans | experiments/counter_ai_v2/native_demo.py:454-569 | whatever commits in a run found the fields its operation demands and leaves the fields it prescribes |
| AdmissionRuns.ResetNeedsEvidence | experiments/counter_ai_v2/native_demo.py:539-569 | a committed reset had its stopped observation and, on a root store, complete evidence of the run and generation durable at that moment |
| AdmissionRuns.ReservedOnce | experiments/counter_ai_v2/native_demo.py:469-481 | two reservations in one run are for different, increasing generations |
| AdmissionRuns.ClearedNeverBinds | experiments/counter_ai_v2/native_demo.py:483-531 | once `mark_stopped` clears a generation, no later state of that generation holds a process or leaves the latch |
| AdmissionRuns.ClearedBindsLater | experiments/counter_ai_v2/native_demo.py:483-569 | so a bind that follows a clear is for a later generation, with a committed reset in between |
| AdmissionRuns.GenerationStands | experiments/counter_ai_v2/native_demo.py:483-569 | between two moments of a run the generation stands still exactly when no reset commits |
| AdmissionRuns.BindIsOwn | experiments/counter_ai_v2/native_demo.py:469-495 | a bind after a reservation binds the generation that was reserved exactly when no reset committed in between |
| AdmissionRuns.SequenceCountsCycles | experiments/counter_ai_v2/native_demo.py:473-569 | in every reachable state `sequence` is at least twice the number of completed generations |
| AdmissionRuns.LatchSurvives | experiments/counter_ai_v2/native_demo.py:185-266 | once a stop has armed its marker, every later state on disk is latched or still marked, through every crash and I/O failure, until a reset commits |
| AdmissionRuns.NoReserveAfterStop | experiments/counter_ai_v2/native_demo.py:390-518 | so no controller's `reserve_start` succeeds between an armed stop and the next committed reset |
| AdmissionRuns.MarkerInhibitsForEver | experiments/counter_ai_v2/native_demo.py:390-410 | a marker left by an interrupted operation stops every later operation of every controller |
| AdmissionBinding.Performs | experiments/counter_ai_v2/native_demo.py:412-569 | one whole operation of an unlocked store: where it renames, and the planned state it leaves |
| AdmissionBinding.OperationMeans | experiments/counter_ai_v2/native_demo.py:412-569 | without a failure an operation changes the durable state exactly where those fields allow it, into the one state they prescribe, and returns exactly there or for a stop over a latch |
| AdmissionBinding.ChangeCommits | experiments/counter_ai_v2/native_demo.py:412-569 | so after any beginning of a run an operation that the fields allow, a reset with its evidence in particular, commits |
| AdmissionBinding.LateBindCrossesGenerations | experiments/counter_ai_v2/native_demo.py:483-495 | a finding: `mark_active` names no generation. A whole run of two controllers in which a launch is reserved, stopped and cleared, and its launcher then binds to the next generation; lock, markers and loads let every step through |
| AdmissionRuns.HeldLockKeepsGeneration | experiments/counter_ai_v2/native_demo.py:412-452 | while one controller keeps the lock and does not reset, the generation stands still, so a launcher that holds the lock binds the generation it reserved |
| AdmissionRuns.UnmarkedFailure | experiments/counter_ai_v2/native_demo.py:154-168 | a finding: when the write and its `.failed` marker both fail, a marker is left exactly if the pending file existed before the rename or the operation is a stop |
| AdmissionRuns.UnmarkedReservation | experiments/counter_ai_v2/native_demo.py:154-168 | a concrete run of it: a reservation on a new store whose directory sync and whose failure marker both fail raises, leaves no marker, and stands on disk |
| AdmissionRuns.ClearRaises | experiments/counter_ai_v2/native_demo.py:225-235 | a finding: a cleanup of the transition marker that raises keeps the marker exactly when the unlink itself failed |
| AdmissionRuns.ClearRaisesBothWays | experiments/counter_ai_v2/native_demo.py:225-235 | both ways on concrete outcomes: a failed unlink, and an unlink with a failed sync |
| AdmissionRuns.ScriptIsSteps | experiments/counter_ai_v2/native_demo.py:238-266 | driving one controller's primitives is a run of the interleaved system, so what the objects do is what the theorems are about |
| AdmissionObjects.AdmissionStore.Open | experiments/counter_ai_v2/native_demo.py:332-336 | a store opens exactly when the state file is valid and no companion file is present |
| AdmissionObjects.AdmissionStore.WriteTransitionMarker | experiments/counter_ai_v2/native_demo.py:185-222 | the marker is armed, flushed, or taken back, one primitive at a time |
| AdmissionObjects.AdmissionStore.ClearTransitionMarker | experiments/counter_ai_v2/native_demo.py:225-235 | the cleanup runs as the machine does, and where it raises the marker is left exactly when its first call failed |
| AdmissionObjects.AdmissionStore.AtomicWrite | experiments/counter_ai_v2/native_demo.py:238-266 | pending file, content, rename and sync, with the failure marker on every error |
| AdmissionObjects.AdmissionStore.Commit | experiments/counter_ai_v2/native_demo.py:454-460 | a commit is a run of the write machine from the plan to the rename, and the cache follows only a completed one |
| AdmissionObjects.AdmissionStore.ReserveStart | experiments/counter_ai_v2/native_demo.py:469-481 | performs the reservation as the machine does, for every script of I/O outcomes and every crash point |
| AdmissionObjects.AdmissionStore.MarkActive | experiments/counter_ai_v2/native_demo.py:483-495 | the same for binding a process |
| AdmissionObjects.AdmissionStore.RequestStop | experiments/counter_ai_v2/native_demo.py:497-518 | the same for a stop, marker first |
| AdmissionObjects.AdmissionStore.MarkStopped | experiments/counter_ai_v2/native_demo.py:520-531 | the same for clearing a stopped launch |
| AdmissionObjects.AdmissionStore.ResetLatch | experiments/counter_ai_v2/native_demo.py:533-569 | the same for a reset, with its evidence |
| Detection.Detector.Accept | experiments/counter_ai/detection.py:42-87 | the call as one step on the detector's memory, raising or returning, in place |
| Detection.Detector.PruneWindow | experiments/counter_ai/detection.py:64-65 | the pruning loop leaves the suffix of the deque that KeptMeans identifies |
| Detection.Detector.Triggers | experiments/counter_ai/detection.py:66-84 | the nine arms' decision on the window and the remembered denial |
| DetectionStreams.KeptMeans | experiments/counter_ai/detection.py:59-65 | the pruned deque holds, in order, exactly the first-seen telemetry since the last gap and within 10 ticks of the newest |
| DetectionStreams.KeptBounded | experiments/counter_ai/detection.py:28-40 | the deque never holds more than 256 entries, so `maxlen` never evicts |
| DetectionStreams.FeedMeans | experiments/counter_ai/detection.py:42-87 | on every valid stream no call raises, and each arm detects exactly at the first position where its declarative condition holds (for the rate arm: eight ticks in the window) |
| DetectionStreams.RulesDetectViolations | experiments/counter_ai/detection.py:66-84 | conventional-rules, remove-sequence and remove-identity detect exactly at the first first-seen event that is a tamper or a denial of the protected resource, and never on a stream without one |
| DetectionStreams.AcceptRaises | experiments/counter_ai/detection.py:42-58 | when `accept` raises: exactly over a stranger to the run or out of order, or a new id beyond 256 before any detection |
| DetectionStreams.ArmsReport | experiments/counter_ai/detection.py:42-87 | the reported tick is the delivery tick of that first position |
| DetectionStreams.ArmsCompared | experiments/counter_ai/detection.py:66-84 | conventional-rules, remove-sequence and remove-identity coincide, correlation and alert-only coincide, remove-timing is no later than correlation, which is no later than conventional-rules; both control arms never detect |
| DetectionStreams.DuplicatesChangeNothing | experiments/counter_ai/detection.py:54-58 | deleting deliveries that repeat an id changes no arm's detection |
| Replay.Generate | experiments/counter_ai/replay.py:62-85 | the generation loop produces the declared events, effect tick and duration |
| Replay.Letters | experiments/counter_ai/replay.py:65-83 | what each letter of a pattern becomes: action, resource, identity, id and ticks of its event |
| Replay.EventsShape | experiments/counter_ai/replay.py:69-84 | all events of a run share scope and run id, and their delivery ticks strictly increase below a computed limit |
| Replay.SortedAlready | experiments/counter_ai/replay.py:84 | whatever the final sort by (tick, id) returns is the list it was given |
| Replay.StreamIsValid | experiments/counter_ai/replay.py:62-85 | every generated stream is a valid detector stream |
| Replay.RecipeViolates | experiments/counter_ai/replay.py:69-84 | a generated run violates the rules exactly at the undropped letters `d` and `t` |
| Replay.RulesDetectRecipe | experiments/counter_ai/replay.py:62-85 | so the three arms without a sequence detect a recipe exactly when it has one |
| ReplayObjects.Group | experiments/counter_ai/replay.py:109-111 | the `setdefault` loop delivers at each tick exactly the events available then, in order |
| ReplayObjects.Run | experiments/counter_ai/replay.py:117-137 | the tick loop over World, Controller and Detector is the tick function iterated, and raises exactly where that does |
| ReplayObjects.Recover | experiments/counter_ai/replay.py:140-152 | the explicit recovery in order, raising where any step of it does |
| ReplayObjects.ReplayOne | experiments/counter_ai/replay.py:88-157 | the whole replay on objects equals the replay on values |
| ReplayRuns.OrderDecodes | experiments/counter_ai/replay.py:94-101 | the event a replay builds is decoded to the human command it means |
| ReplayRuns.StagesHold | experiments/counter_ai/replay.py:117-137 | the invariant of the tick loop for every tick, with the one way it can raise: simulated time is exhausted |
| ReplayTheorems.ReplayMeans | experiments/counter_ai/replay.py:88-157 | a replay raises exactly when simulated time runs out; otherwise its report is the closed form: each detection answered once, one tick later (thirty for alert-only), and every prevention explained by the access rule or by a response strictly before the effect |
| ReplayTheorems.RecipeReplays | experiments/counter_ai/replay.py:46-157 | the same for every recipe that passes the fixture checks with a known effect kind |
| ReplayTheorems.ShortDelayNeverRaises | experiments/counter_ai/replay.py:79-81 | a delay of at most 999 999 700 ticks never raises |
| ReplayTheorems.LongDelayRaises | experiments/counter_ai/replay.py:46-81 | a finding: the fixture checks admit a delay that exhausts simulated time, and then every arm raises |
| ReplayTheorems.RecoverOk | experiments/counter_ai/replay.py:140-154 | recovery succeeds whenever four ticks are left, and leaves allocation B as it was |
| ReplayTheorems.CorrelationBeatsRules | experiments/counter_ai/replay.py:122-157 | on one run, what conventional-rules prevents or interrupts correlation prevents or interrupts |
| ReplayTheorems.CorrelationBeatsAlert | experiments/counter_ai/replay.py:122-157 | on one run, what alert-only prevents correlation prevents |
| ReplayTheorems.GainNeverNegative | experiments/counter_ai/replay.py:250-257 | the paired gain of a row is never negative |
| ReplayTheorems.TalliesOrdered | experiments/counter_ai/replay.py:215-222 | per pacing, correlation prevents at least as many harmful runs as conventional-rules or alert-only and interrupts at least as many benign ones |
| Upgrade.AllRestored | scripts/upgrade.py:232-248 | restoring every entry of a complete snapshot gives every path its snapshotted content, mode and owner or absence, from any tree that differs only inside the snapshot |
| Upgrade.PrefixRestored | scripts/upgrade.py:232-248 | a restore cut after any entry stays inside the snapshot and is never refused at the next one |
| Upgrade.EventProtected | scripts/upgrade.py:232-329 | every write of an upgrade, every journal phase and every recovery, whole or cut short, keeps a complete rollback snapshot; a completed restore undoes the transaction |
| Upgrade.RollbackRestores | scripts/upgrade.py:415-478 | whatever the upgrade wrote and however often and wherever recoveries were cut short, one completed restore gives back the old tree, and RUNS its backup if one was taken |
| Upgrade.NeverRefused | scripts/upgrade.py:232-248 | in every such state no entry's type or missing-backup check can refuse the restore |
| UpgradeObjects.Machine.SnapshotFiles | scripts/upgrade.py:209-229 | a finished snapshot describes the tree exactly over the requested paths and copies RUNS when it is a directory |
| UpgradeObjects.Machine.RestoreSnapshot | scripts/upgrade.py:232-253 | file by file, then RUNS name by name: how it leaves the tree and RUNS when it returns, raises or dies |
| UpgradeObjects.RestoreIsEvent | scripts/upgrade.py:232-253 | each such ending is an event of the transaction, so RollbackRestores applies to it |
| NameOrder.Sorted | scripts/upgrade.py:260 | the names of a directory, each once, in Python's order of strings |
| UpgradeObjects.Machine.MigrateRuns | scripts/upgrade.py:256-270 | v3 records become v4 in the order of their names: three members of each converted record are set and nothing else is touched; it returns only if no record stops it, and when the system does not fail it stops exactly at the first active or unreadable record, with exactly the v3 records before it converted |
| UpgradeObjects.CutMigrationKeeps | scripts/upgrade.py:260-269 | a finding: a migration that stops at a record has changed nothing exactly when no v3 record comes before it |
| UpgradeObjects.CutMigrationExample | scripts/upgrade.py:463-465 | a concrete directory with a terminal v3 record before an active one: it stops at the second and has converted the first |
| UpgradeObjects.Machine.ReplaceInstall | scripts/upgrade.py:295-328 | only the eight fixed paths are written, and on return all of them hold the new release |
| UpgradeObjects.Machine.Transact | scripts/upgrade.py:457-472 | all journal phases name the same backup and file list, and everything needed to undo the upgrade exists while the journal does |
| UpgradeObjects.Machine.Rollback | scripts/upgrade.py:479-502 | the exception handler restores the tree, or leaves the journal with everything a recovery needs |
| UpgradeObjects.Machine.Recover | scripts/upgrade.py:415-429 | until it returns it can be repeated, and only the system can make it raise; with the journal gone the tree is the old one, and RUNS its backup |
| UpgradeObjects.Machine.Upgrade | scripts/upgrade.py:432-505 | a refused upgrade changes nothing; over replaceable files and migratable records it raises only where the system does, and with calls enough it returns; nothing changed before the journal; protected while it exists; on return the new release in place, the records converted, the backup gone; the old tree whenever a rollback completed |
| Lifecycle.System.RemoveAll | scripts/install.py:289-293 | the removal loop, one name at a time: only removals, and every listed target that is not an alias is gone on return |
| Lifecycle.SafeMeans | scripts/install.py:224-240 | the check made on every target before a removal: ownership, one link and the kind the product makes there, never an alias |
| Install.WriteInstallJournal | scripts/install.py:147-171 | the journal is absent, torn or complete, and complete on return; an existing one is never replaced |
| Install.RemoveInstallJournal | scripts/install.py:174-176 | where it raises the journal is gone exactly when the unlink worked and the directory sync did not |
| Install.RecoverWorkloadIdentity | scripts/install.py:243-271 | removes account and group unless preexisting; an account that was changed and a group with members stand, and it raises |
| Install.RecoverInterrupted | scripts/install.py:274-299 | cut short it can be repeated; on return no target, no journal and only preexisting accounts, which are the accounts from before the install exactly unless a bare group of the product's name was there without its user; refused by another candidate, over unsafe targets and over changed accounts, which then stand with the journal, and else only by the system; over an empty host four working calls are enough to return |
| Install.BareGroupRecovery | scripts/install.py:243-271 | a finding: a concrete host with such a group, whose recovery removes it |
| Install.WorkloadAccount | scripts/install.py:420-431 | returns an existing account or makes one with its group; raising, it leaves an account behind exactly when `useradd` failed or timed out after it had written something, or worked and the lookup after it failed |
| Install.PrepareIdentity | scripts/install.py:636-647 | what `install` records of the accounts is all that changed, except exactly when a failing `useradd` had written something, or the lookup of the new user or of its group failed |
| Install.Attempt | scripts/install.py:635-696 | the statements under `try`: with calls enough and an isolated identity they finish, every file in its place with its own content; targets stay safe to recover, the journal stays until all of them stand, and it is gone where they raise exactly when the final sync failed after the unlink |
| Install.Cleanup | scripts/install.py:552-564 | on return every target that was finished is gone; what is left is still safe to recover; of the accounts exactly what `userdel` and `groupdel` took is gone, and they are called only for what was recorded as made; their exit status is ignored, a timeout raises |
| Install.CleanupComplete | scripts/install.py:567-584 | when every account that was made is recorded, a true answer says that targets and accounts are as before the install, and a false one that they are not |
| Install.Handle | scripts/install.py:699-703 | the handler removes the journal only when no target is left and everything recorded is undone |
| Install.Try | scripts/install.py:635-703 | the statements under `try` with their handler, from a whole journal: the same statement as for the install |
| Install.InstallFresh | scripts/install.py:614-703 | by the outcomes of the calls: refused it changes nothing; with calls enough and an isolated identity it returns, every file in its place with its own content under that identity; every end is guarded by the journal, undone or complete, except exactly when the final unlink worked, the sync after it failed and the cleanup left the product partly down; accounts are left without journal and targets exactly when a failing `useradd` had written something or the lookup of the new user failed, or the lookup of his group failed and `userdel` does not take it, or that final sync failed and `userdel` and `groupdel` did not take both |
| Install.LostUserInstall | scripts/install.py:634-703 | a finding: an empty host and a script of call outcomes after which no journal and no target is left, and the new user and group are |
| Install.LateUserInstall | scripts/install.py:420-431 | a second one, where `useradd` times out after its work |
| Install.LostGroupInstall | scripts/install.py:637-703 | a third one, where the lookup of the group fails |
| Install.OrphanedInstall | scripts/install.py:694-703 | a finding: a concrete host and script of call outcomes for which the install ends covered by nothing |
| Install.Install | scripts/install.py:587-703 | the same with a preceding recovery of an interrupted install: targets and accounts relative to what the recovery left |
| Lifecycle.NothingLeft | scripts/install.py:289-299 | after the loop over all targets nothing safe is left of them |
| Uninstall.RemoveManifestIdentity | scripts/uninstall.py:240-267 | only what the manifest created goes, and on return all of it is gone; a changed account is refused and stands, and a changed group is never given to `groupdel` |
| Uninstall.WriteUninstallJournal | scripts/uninstall.py:90-122 | the journal carries the manifest and the account's group, whole on return |
| Uninstall.ValidateRemaining | scripts/uninstall.py:197-226 | accepts exactly when every manifest file is unchanged (or missing, where allowed) and every target is safe |
| Uninstall.SettledRemains | scripts/uninstall.py:197-226 | services stopping or restarting never make the remaining targets fail that check |
| Uninstall.RecoverUninstall | scripts/uninstall.py:270-291 | cut short it can be repeated; on return everything the manifest claims is gone and nothing else; another script, changed files, populated control groups and changed accounts are refused: accounts and journal then stand |
| Uninstall.Uninstall | scripts/uninstall.py:398-447 | untouched before the journal is whole, recoverable while it is, and everything gone after it; refused without a complete manifest over unchanged files and while control groups are populated; over a changed account it never returns and the account stands; else only the system makes it raise |
| Receipt.EqualMeans | scripts/validate_hosted_proof_receipt.py:82-87 | `_json_equal` is JSON equality against a constant exactly when the constant is a scalar or holds no boolean, 0 or 1 |
| Receipt.Preflight | scripts/validate_hosted_proof_receipt.py:111-188 | accepts exactly the schemas all of whose subschemas are well formed, never reports an invalid receipt, and raises TypeError exactly where a schema with passing keywords has a list or object as `type`, first reached among branches and then properties |
| Receipt.PreflightReaches | scripts/validate_hosted_proof_receipt.py:111-188 | a schema passes the preflight exactly when it and every subschema on any path of branches and properties meet the written conditions, and none but the root names its dialect |
| Receipt.UnhashableCrashes | scripts/validate_hosted_proof_receipt.py:131-141 | a finding: a concrete schema with a list as the type of a branch, over which the preflight raises TypeError |
| Receipt.PreflightBranches | scripts/validate_hosted_proof_receipt.py:134-141 | the `oneOf` part, branch by branch |
| Receipt.PreflightObject | scripts/validate_hosted_proof_receipt.py:143-164 | the object contract and its properties |
| Receipt.PreflightLeaves | scripts/validate_hosted_proof_receipt.py:166-188 | enum, pattern and bounds |
| Receipt.Validate | scripts/validate_hosted_proof_receipt.py:191-270 | on a preflighted schema it terminates, never reports a contract error, and accepts exactly what the schema admits |
| Receipt.ValidateBranches | scripts/validate_hosted_proof_receipt.py:196-212 | the counting loop accepts exactly when one branch admits the value |
| Receipt.ValidateKind | scripts/validate_hosted_proof_receipt.py:214-227 | type, const and enum, in that order, accept exactly what the schema admits of them |
| Receipt.ValidateBounds | scripts/validate_hosted_proof_receipt.py:240-252 | a present bound makes the value a number within the bounds that are numbers |
| Receipt.ValidateObject | scripts/validate_hosted_proof_receipt.py:254-270 | required within present within declared, and each present property admitted |
| Receipt.ValidateReceipt | scripts/validate_hosted_proof_receipt.py:273-277 | preflight, then validation: accepted exactly for admitted values of accepted schemas, invalid exactly for the other values, TypeError exactly where the preflight meets it |
| Receipt.AdmitsMeans | scripts/validate_hosted_proof_receipt.py:191-270 | what the validator admits is the keyword-by-keyword reading of the schema, when constants hold no nested boolean, 0 or 1 and bounds are typed |
| Receipt.ExactMeans | scripts/validate_hosted_proof_receipt.py:82-87 | that condition is exact: a preflighted schema meets it if and only if every keyword of it and of its subschemas reads as JSON Schema reads it |
| Receipt.BoundsReadExactly | scripts/validate_hosted_proof_receipt.py:240-252 | for bounds: they read as they should exactly when none stands under a type that is not numeric |
| Receipt.NullBoundMeans | scripts/validate_hosted_proof_receipt.py:179-252 | a finding: a bound elsewhere is null, and makes the value a number; so a given type admits nothing, and without a type only numbers are admitted |
| Receipt.NullBoundAdmitsNothing | scripts/validate_hosted_proof_receipt.py:240-252 | a finding: a null bound under a non-numeric type passes the preflight, and then no value is accepted |
| Receipt.NullBoundExample | scripts/validate_hosted_proof_receipt.py:179-188 | a concrete schema for it, which the keyword reading satisfies with any text |
| Receipt.UntypedNullBoundExample | scripts/validate_hosted_proof_receipt.py:179-252 | a second one without a type, which says nothing and admits exactly the numbers |
| DepthScan.CheckDepth | scripts/export_detection_receipt.py:95-116 | the three-variable loop is the character automaton run over the text |
| DepthScan.DepthIsExact | scripts/export_detection_receipt.py:95-116 | on the text of any JSON value, whatever its strings hold, the check fails if and only if containers nest more than 64 deep, and otherwise ends outside strings at depth 0 |
| ZipEnd.WindowSuffices | scripts/first_kill.py:535-541 | some record in the whole file closes it if and only if one in the window does |
| ZipEnd.HasExactZipEnd | scripts/first_kill.py:535-552 | true exactly when some end record and its comment end with the file |
| ZipEnd.RequireExactZipEnd | scripts/verify_release.py:33-50 | the same verdict, and which way it failed |

## Left out

- Processes, control groups, pidfds, seccomp, systemd, signatures, git and network calls: a required outcome is a parameter or one of the I/O outcomes.
- The example, matrix, smoke and qualification scripts, the brokered operator, the supervisor and the containment probe: not part of this model.
- Clocks and printed output; `updated_monotonic_ns` is not part of `Admission.State`.
- JSON lexing, float parsing, SHA-256 and the regular-expression engine: JSON arrives as a tree, digests compare contents, and the engine is a parameter of `Receipt`.
- Numbers in `Receipt` are finite; integers too large for Python's `math.isfinite` and recursion limits are not modelled.
- The 16 KiB size checks of the admission store and the owner, mode and symbolic-link checks on its directory; its marker and lock files are present or absent.
- Re-entrant depth of `writer_lock` inside one call: the class performs each operation under a lock already held, and the lock itself is part of the interleaved system.
- Power loss that reorders directory entries: processes die and calls fail, but a completed call stays completed.
- Temporary files left beside the managed paths after a crash, and the parent directories a restore creates.
- Mutual exclusion of the lifecycle lock: install, upgrade and uninstall are taken to be serialised.
- StopRuns.LaunchDiscipline: one controller is live at a time, as the original demands of its callers.
- ReplayTheorems.RecipeReplays: recipes have a non-negative delay, which the integer limits of `bounded_json` already enforce; the seeded generator is a parameter within its ranges.
- ReplayTheorems.TalliesOrdered: the bootstrap intervals, percentiles and rates of `summarise` are not modelled.
- UpgradeObjects.Machine.Upgrade: says nothing about the tree when a rollback is itself cut short after the journal is gone, because nothing is left to repeat it from; checks of manifest, operator and artifact are one outcome.
- UpgradeObjects.Machine.Transact: that nothing stops a migration, and how many calls an upgrade takes, is said for hosts whose services write no run record meanwhile (`Machine.idle`); on others they may write any.
- UpgradeObjects.Machine.SnapshotFiles: run records do not change while RUNS is being copied.
- UpgradeObjects.Machine.MigrateRuns: the members a conversion does not set are one opaque field.
- Install.InstallFresh: a torn journal write leaves a state without mutation that a later install refuses by design; bytes written into the product files are parameters.
- Install.RecoverInterrupted: that an account made by `useradd` is isolated is assumed for never being refused, not for the rest.
- Install.WorkloadAccount: a `useradd` that works makes user and group with one id, and it is refused when the group exists; what one that fails leaves behind (user, group, both or nothing) is a parameter of the host.
- Install.Cleanup: a `systemctl` call that times out is not modelled; before the removals it would end the handler as a process death there does, after them it would keep the journal of a host already as before.
- Uninstall.RecoverUninstall: `userdel` may take the account's own group with it even when the manifest does not list the group.
- Receipt.AdmitsMeans: its condition is exact keyword by keyword (Receipt.ExactMeans); a schema outside it may still admit the right values as a whole, when another keyword hides the difference.
- `validated_members` of verify_release.py, `new_policy`, `transitional_doctor_ready` and the diagnostic builders: single expressions whose models would only repeat them.
