# Verified model of the DAOS operator

The operator runs DAOS storage systems on Kubernetes. Its controllers work in passes: each pass reads the stored
spec, annotations and status, talks to DAOS through named Jobs, and writes the status back. Answers arrive late,
any call can fail, and humans approve or withdraw at any time. The project models those passes and proves what
they keep over whole runs.

Each controller has a value for its state, an input that says what one pass sees and which of its API calls fail,
a function `Pass` that is the specification, and a class whose methods are the imperative code, proved equal to it.
The `...Runs` modules put passes, humans, Jobs and operator restarts into runs and record what each pass did; the
theorems speak about those records, not about what the operator remembers. A pass that ends in an error, or whose
status write fails, keeps its effects and loses its status. The `...Exact` modules say for one pass, case by case and
in both directions, what follows from what it was given: rows, texts, answers and times, with the operator's names
and durations written out and without the functions of the model they are about.

| file | what it models |
|---|---|
| `Mailbox`, `MailboxRuns` | the Job mailbox every controller shares |
| `EngineRestart`, `EngineRuns`, `EngineAnswers`, `EnginePods`, `EngineExact` | starting engines that died, one batch at a time |
| `FullStop`, `FullStopRuns`, `FullStopEdges`, `StopRuns`, `BackupRuns`, `RestartEnds` | the full-stop restart and the certificate rotation |
| `Format`, `FormatRuns`, `FormatAnswers`, `FormatExact`, `Readiness` | the format gate, the membership mirror, and Ready |
| `Pool`, `PoolRuns`, `PoolDrift`, `PoolRecords`, `PoolEdges`, `PoolScenes`, `PoolExact` | one DaosPool: create, drift repair, destroy |
| `Container`, `ContainerSteps`, `ContainerRuns`, `ContainerEdges`, `ContainerExact` | one DaosContainer, and both controllers together |
| `RankOp`, `RankOpRuns`, `RankOpExact`, `RankSet` | rank requests and rank sets |
| `Replicas`, `BdevLayout`, `BdevCheck`, `BdevExact`, `Shell` | replica choice, the drive-layout check, shell quoting |
| `System` | the order of the steps of one DaosSystem pass |
| `Collections`, `Text`, `DaosStatus` | sorting, Go string functions, shared records |

Clocks, Kubernetes calls, dmg answers and pods are inputs. Times are nanoseconds; the times of pool queries and rank
requests that a status keeps are cut to whole seconds, as Kubernetes stores them. A certificate bundle is a number, a
hash of an ACL is the joined text.

Where the code and its own words disagree, the model follows the code:

- A failed pool operation is said to wait for a spec change; a failed ACL never does, and the others wait only until
  a pass records another reason, which for a failed extend, reintegration mode or self_heal the next query does
  (`PoolEdges.RetriedExactly`, `PoolScenes.FailedRepairRearms`).
- The ACL recorded as applied is the one of the spec when the Job is read, not the one the Job wrote
  (`PoolEdges.RecordedAclExactly`).
- A refusal is said to be kept three minutes at most; it is kept as long as the pool cannot be judged
  (`ContainerRuns.MarkSurvivesExactly`). A heal Job can be sent a second time without a judgement of its own
  (`ContainerRuns.HealJobsRest`).
- An answered rank request is said to be done; a failed patch makes it run again, and an edited one can be answered
  with the result of another Job (`RankOpRuns`).
- After an operator restart a batch of engine starts can be judged by the Job of another (`EngineAnswers`).
- `DriveConflicts` speaks of serials on more than one node; a serial twice on one node counts too
  (`Replicas.ExcludedExactly`).
- The pod-delete escape is said to spare nodes with a joined rank; it spares joined ranks outside the batch only
  (`EngineRuns.PodDeletesAreSafe`).
- The certificate backup and the stop of a restart are not always its own; when exactly, `BackupRuns` and
  `FullStopEdges` say.
- Approved formats are one-shot except after a failed patch, and a lost write can repeat one (`FormatRuns`). A format
  left over from one approval can answer that of the next (`FormatAnswers`).
- A restart approval is one-shot too, yet a pass that loses its status can send a second stop (`StopRuns`).
- DestroyStalled is said to be sent once; each pass that sends it and loses its status adds one (`PoolRuns`).

## Model

| member | source | states |
|---|---|---|
| `Mailbox.JobRunner.Run` | internal/dmg/dmg.go:140-190 | One call: create when absent, Pending while it runs or is being deleted, deliver once and delete; every API failure leaves the mailbox as it was |
| `Mailbox.JobRunner.Create` | internal/dmg/dmg.go:298-302 | A create that runs into an existing Job counts as pending |
| `MailboxRuns.Conservation` | internal/dmg/dmg.go:140-190 | In every run, per name, Jobs created minus results delivered is 0 or 1, and 1 exactly while the name is open |
| `MailboxRuns.DeliveriesAnswerCreations` | internal/dmg/dmg.go:140-190 | Every delivered result belongs to exactly one earlier creation of that name and carries the answer that Job finished with |
| `MailboxRuns.DeliveredForTheseArguments` | internal/dmg/dmg.go:140-190 | A delivered result is for the caller's arguments if and only if the call that created its Job had them, so an unedited request gets its own result |
| `MailboxRuns.EditedRequestGetsTheOldResult` | internal/dmg/dmg.go:140-155 | A run in which a call with new arguments is handed the result of the old ones |
| `RankSet.RankList` | internal/controller/daossystem_enginerestart.go:322-328 | The loop prints the ranks in order, separated by commas |
| `RankSet.ParseRankSet` | internal/controller/daossystem_rankop.go:176-195 | The nested loops compute the union of the items' intervals, for every text, with the int32 conversion |
| `RankSet.ItemReadsExactly` | internal/controller/daossystem_rankop.go:176-195 | For every text an item names nothing without a readable first number, that number alone without a readable second, and else all between the two |
| `RankSet.RankSetMeaning` | internal/controller/daossystem_rankop.go:176-195 | A printed list of ranks and ranges parses to exactly the ranks its items cover |
| `RankSet.RankListRoundTrip` | internal/controller/daossystem_enginerestart.go:322-328 | Parsing a printed rank list gives exactly its non-negative ranks |
| `RankSet.RankListNotEmpty` | internal/controller/daossystem_enginerestart.go:172-173 | A batch never prints as the empty text that means "nothing in flight" |
| `EngineRestart.Candidates` | internal/controller/daossystem_enginerestart.go:96-114 | The loops compute the errored or excluded ranks on nodes whose server is ready, none while a rank request is open |
| `EngineRestart.Choose` | internal/controller/daossystem_enginerestart.go:150-179 | The switch over tries, grace and interval computes who is due, who is given up on and the delay |
| `EngineRestart.RestartStuckServers` | internal/controller/daossystem_enginerestart.go:229-277 | The loops compute `Escape`; that these are exactly the pods that must go, `EnginePods` proves |
| `EngineRestart.EngineRestarts.Reconcile` | internal/controller/daossystem_enginerestart.go:118-225 | One pass over the package maps equals the specification `Pass`; its start Job and delay are spelled out in `EngineExact.StartJobExactly` |
| `EngineRuns.AtMostThreeStarts` | internal/controller/daossystem_enginerestart.go:125-184 | Over every run, a stretch of passes that all see a rank down starts it at most three times and gives up on it at most once |
| `EngineRuns.StartsAreSpaced` | internal/controller/daossystem_enginerestart.go:153-179 | The start after n earlier ones comes no sooner than grace plus n intervals after the rank first was a candidate |
| `EngineRuns.GiveUpAfterThree` | internal/controller/daossystem_enginerestart.go:157-161 | The give-up event comes after exactly three starts while the membership lists each rank once |
| `EngineRuns.OneBatchInFlight` | internal/controller/daossystem_enginerestart.go:149-178 | Between two batches of one operator lifetime a start result was read |
| `EngineRuns.PodDeletesAreSafe` | internal/controller/daossystem_enginerestart.go:213-277 | A pod is deleted only in a pass that read a timed-out or per-rank-failed start while that batch was in flight, on a node with a rank of the batch and no joined rank outside it; rests on the rank-list round trip. Whose Job that start was, `EngineAnswers.AnswerIsOwnExactly` says |
| `EnginePods.PodsGoExactly` | internal/controller/daossystem_enginerestart.go:213-277 | In every reachable state, a pass that reads a timed-out or per-rank-failed start has one list of pods to delete: those not already going on nodes with a rank of the batch and no joined rank outside it, by node name and in the order listed on each node. It deletes all of it or the part up to the first delete that fails, and the next start is counted from now for exactly the batch ranks on nodes it got through; any other pass deletes nothing |
| `EnginePods.AllExpendableGo` | internal/controller/daossystem_enginerestart.go:229-277 | When the pods can be listed and deleted, a pod goes if and only if it is on that list |
| `EngineExact.BatchExactly` | internal/controller/daossystem_enginerestart.go:96-184 | For every pass and rank: how often it is in the batch, whether it is given up on, whether it is remembered and as what, from the rows, the node configs and the track alone, with two minutes, five minutes and three starts written out |
| `EngineAnswers.AnswerIsOwnExactly` | internal/controller/daossystem_enginerestart.go:149-225 | In every run the start result a batch is judged by comes from a Job older than the batch if and only if a start Job was open as the batch was chosen; otherwise from one made for just these ranks |
| `EngineAnswers.BatchGetsItsAnswer` | internal/controller/daossystem_enginerestart.go:149-225 | Between two batches a result was read, the first batch's own exactly if no start Job was open as it was chosen |
| `EngineAnswers.LeftOverStartIsTaken` | internal/controller/daossystem_enginerestart.go:172-225 | A run in which, after an operator restart, the batch of rank 2 is judged by the Job of rank 1 |
| `EngineRuns.DelayIsExact` | internal/controller/daossystem_enginerestart.go:152-168 | With the membership unchanged, a batch is due d later if and only if d has reached the delay asked for |
| `EngineRuns.IdlePassWakesInTime` | internal/controller/daossystem_enginerestart.go:152-193 | The delay is exact in every reachable state, and absent exactly when every candidate is given up on |
| `FullStop.AnyStale` | internal/controller/daossystem_upgrade.go:128-142 | A pod with a readable image other than the wanted one makes the system stale, and nothing else does |
| `FullStop.CountReady` | internal/controller/daossystem_upgrade.go:257-270 | Counts the ready, not terminating pods on the wanted image |
| `FullStop.DeletePods` | internal/controller/daossystem_upgrade.go:240-252 | Deletes, in order, every pod on another image (every pod in a rotation) until one delete fails |
| `FullStop.Controller.RotateCerts` | internal/controller/daossystem_certs.go:138-172 | Backs the bundle up, then replaces it; each failure leaves what was written before it |
| `FullStop.Controller.ClearCertsApproval` | internal/controller/daossystem_certs.go:126-133 | Removes the one-shot approval or leaves it when the patch fails |
| `FullStop.Controller.ResetApproval` | internal/controller/daossystem_upgrade.go:117-124 | Removes the one-shot approval or leaves it when the patch fails |
| `FullStop.Controller.Step` | internal/controller/daossystem_upgrade.go:208-337 | One step of a restart in progress equals `Advance`: timeout first, then the stage; what each answer then does, `FullStopRuns` and `RestartEnds` say on the answers themselves |
| `FullStop.Controller.ReconcileUpgrade` | internal/controller/daossystem_upgrade.go:128-340 | Begin, wait, drop a useless approval or advance, equal to `Decide`; the pass without a restart is spelled out in `RestartEnds.IdleExactly` |
| `FullStop.Controller.Reconcile` | internal/controller/daossystem_controller.go:421-432 | An error or a failed status write leaves the stored status while every other effect stays |
| `FullStopRuns.ReplacedOnlyWhenStopped` | internal/controller/daossystem_upgrade.go:212-252 | In every run pods are deleted and the Secret swapped only after a pass of the same restart that read a stop answered with a member list or an undecodable payload |
| `FullStopRuns.StartedOnlyWhenPodsUp` | internal/controller/daossystem_upgrade.go:257-290 | In every run the system is started only after that stop and a pass that listed, place by place, at least as many pods ready on the wanted image and not terminating as nodes were rendered |
| `FullStopRuns.FailedAnswersEndRestart` | internal/controller/daossystem_upgrade.go:212-290 | In every run a stop or start that is unreadable or a dmg error ends the restart as failed in the pass that reads it, which deletes nothing and swaps nothing; any other goes on |
| `FullStopRuns.CompletedMeansJoined` | internal/controller/daossystem_upgrade.go:292-337 | A restart completes only on a member list that is not empty and all joined |
| `FullStopRuns.RestartsDoNotOverlap` | internal/controller/daossystem_upgrade.go:160-206 | No restart begins while one runs |
| `FullStopRuns.RestartsNeedApprovals` | internal/controller/daossystem_upgrade.go:143-206 | Over every run the restarts put on record never outnumber the approvals given, whichever patches and writes fail; for the stops that passes without a stored status send, see `StopRuns.StopsNeedApprovals` |
| `StopRuns.StopsNeedApprovals` | internal/controller/daossystem_upgrade.go:143-230 | Over every run the stop Jobs created never outnumber the approvals given plus the passes that sent or read a stop and lost their status |
| `StopRuns.LostStopIsSentAgain` | internal/controller/daossystem_upgrade.go:208-230 | A run with one approval and two stop Jobs |
| `FullStopRuns.TimeoutEndsRestart` | internal/controller/daossystem_upgrade.go:208-210 | A pass later than the timeout does nothing but end the restart, which stays recorded exactly if a patch or the write of that pass failed |
| `FullStopEdges.StopIsOldExactlyWhenLeftOver` | internal/controller/daossystem_upgrade.go:212-230 | The stop result a restart acts on is older than the restart if and only if an undelivered stop Job lay there when it began and this is the first result |
| `FullStopEdges.LeftOverStopIsTaken` | internal/controller/daossystem_upgrade.go:208-230 | A run in which a restart deletes pods on the stop Job of an earlier, timed-out one |
| `BackupRuns.BackupHoldsOriginal` | internal/controller/daossystem_upgrade.go:231-255 | In every run, from the first swap of a restart until another begins, whether it runs or has ended, the backup has lost the bundle swapped out if and only if in the pass of that swap a pod could not be deleted or the status not be written, and a later pass of the restart, the one that ended it included, was in time with a readable Secret and a backup it could write |
| `BackupRuns.LastPassLosesOriginal` | internal/controller/daossystem_upgrade.go:231-255 | A run whose last pass writes the backup again, records the failure and loses the original bundle |
| `FullStopEdges.StoredSwapIsLastBackup` | internal/controller/daossystem_upgrade.go:231-255 | A swap whose pass was stored is the last backup of its restart |
| `FullStopEdges.SecondSwapLosesOriginal` | internal/controller/daossystem_upgrade.go:231-250 | A run in which one failed pod delete makes the rotation swap twice and lose the original bundle |
| `Format.FindHosts` | internal/controller/daossystem_format.go:361-380 | The loops compute the sorted addresses of `FormatHosts` |
| `Format.ReadMembers` | internal/controller/daossystem_format.go:284-303 | The loop mirrors every member and counts joined and awaiting ranks |
| `Format.FindDown` | internal/controller/daossystem_format.go:491-513 | The node set of `markUnresponsive`: a workload without a ready server, or a replica listed as down |
| `Format.MarkDown` | internal/controller/daossystem_format.go:514-523 | Marks the ranks on those nodes and recounts the joined ones |
| `Format.FormatGate.RunGate` | internal/controller/daossystem_format.go:157-231 | Format or query, equal to `Gate` |
| `Format.FormatGate.Reconcile` | internal/controller/daossystem_format.go:135-330 | One pass equals the specification `Pass`, errors and lost writes included |
| `FormatRuns.FormatHostsExact` | internal/controller/daossystem_format.go:361-380 | The list is sorted and holds exactly the addresses of ready nodes with a ready server that have no row or one in state awaitformat |
| `FormatRuns.HostTakesPortOff` | internal/dmg/dmg.go:523-528 | The host of any host with any port is that host, colons in it included |
| `FormatRuns.MarkAt` | internal/controller/daossystem_format.go:514-520 | `markUnresponsive` changes exactly the rows on nodes that are down |
| `FormatRuns.WholeFormatIsGated` | internal/controller/daossystem_format.go:157-209 | In every run the whole system is formatted only on an approval, with all servers ready, and while the last stored conclusive answer is "not formatted" |
| `FormatRuns.HostFormatIsGated` | internal/controller/daossystem_format.go:157-175 | Any other format names exactly those hosts; so in the last stored member list no address of a member stands for the node, by the node map or by itself, or one that does awaits format |
| `FormatRuns.FormatsNeedApprovals` | internal/controller/daossystem_format.go:157-199 | Format Jobs created never outnumber approvals plus failed removals of the approval |
| `FormatRuns.StatusMirrorsMembers` | internal/controller/daossystem_format.go:284-303 | In every run the status has, row by row, the rank and state of the last member list, some shown as unresponsive, and as node the one known for the address before its last colon, or that address; it counts the joined rows and all of them |
| `FormatRuns.WholeFormatSeesLatest` | internal/controller/daossystem_format.go:193-209 | When the whole system is formatted, the last conclusive answer seen is "not formatted", unless the pass that saw the last one saw members or a finished format and its status write, or its removal of the approval, failed; and exactly then it is not |
| `FormatRuns.FailedClearFormatsTwice` | internal/controller/daossystem_format.go:186-189 | A run with one approval and two format Jobs, after a failed patch; the second goes out although a finished format was the last thing seen |
| `FormatRuns.LostWriteFormatsAgain` | internal/controller/daossystem_format.go:200-209 | A run in which a lost status write lets the next approval format a formatted system |
| `FormatAnswers.FormatResultIsForeignExactly` | internal/controller/daossystem_format.go:157-209 | In every run a format result belongs to the last format Job created, and is that of another format than asked for if and only if the status on record asked for another when the Job was created |
| `FormatAnswers.FormatResultIsOldExactly` | internal/controller/daossystem_format.go:176-189 | For every moment of a run and every later pass that reads a format result, the Job is older than the moment if and only if a format Job was open then and no result was read since |
| `FormatAnswers.LeftOverFormatIsTaken` | internal/controller/daossystem_format.go:157-209 | A run in which the format of one host is answered, and recorded as done, by a whole-system format of a withdrawn approval |
| `FormatExact.MembersRead` | internal/controller/daossystem_format.go:281-330 | A member list becomes the status row by row; pending exactly if a row awaits format or a node is to be formatted; the approval goes exactly if nothing is pending, and when it cannot the pass keeps nothing of the list; the next query a minute later, or half a minute while pending |
| `FormatExact.TimeoutRead` | internal/controller/daossystem_format.go:486-523 | A query that timed out keeps every row and shows as unresponsive exactly those on nodes with a workload without a ready server, or recorded last under the address of a replica listed as down |
| `FormatExact.FormatRead` | internal/controller/daossystem_format.go:186-208 | A finished format uses its approval up; only a good one formats the system and lets the next pass ask at once; where the approval stays nothing is kept |
| `FormatExact.FormatCreatedExactly` | internal/controller/daossystem_format.go:140-184 | A format Job is created if and only if one is approved, pending and has a node to format, every rendered server is ready, the name is free and the API goes along |
| `Readiness.CheckEngines` | internal/controller/daossystem_engines.go:51-117 | The loops and the switch compute EnginesReady |
| `Readiness.EnginesExactly` | internal/controller/daossystem_engines.go:51-117 | Which reason EnginesReady gives, as one condition each on the rows, the node configs and the membership condition |
| `Readiness.ReadyExactly` | internal/controller/daossystem_controller.go:464-489 | When Ready is set: servers up, formatted, all ranks joined and some there, and, while the membership is known, every row on a served node and every served node complete |
| `Readiness.HonestByCounting` | internal/controller/daossystem_engines.go:82-116 | Joined ranks on every served node plus one total bound give engines times servers, by counting |
| `Readiness.ReadyIsHonest` | internal/controller/daossystem_controller.go:464-489 | In every run, Ready with EnginesReady not Unknown means every rank joined on a served node, every served node complete, and at least engines times servers joined ranks |
| `Readiness.UnknownEnginesCanBeReady` | internal/controller/daossystem_controller.go:464-489 | A run after which, with EnginesReady Unknown, Ready rests on a rank of a node that is not served |
| `Pool.FindMissing` | internal/controller/daospool_controller.go:121-135 | The loops compute `MissingRanks` |
| `Pool.PoolController.FindDrift` | internal/controller/daospool_controller.go:387-408 | The drift checks in their order |
| `Pool.PoolController.FinishOp` | internal/controller/daospool_controller.go:670-721 | What a finished operation writes to the status, spelled out in `PoolExact.FinishedExactly` |
| `Pool.PoolController.RunFinalize` | internal/controller/daospool_controller.go:724-779 | What deletion does, equal to `Finalize`, spelled out in `PoolExact.DestroyedExactly` |
| `Pool.PoolController.Reconcile` | internal/controller/daospool_controller.go:223-420 | One pass equals the specification `Pass`; a missing pool is spelled out in `PoolExact.MissingExactly` |
| `PoolRuns.MissingRanksExact` | internal/controller/daospool_controller.go:121-135 | Sorted, without duplicates, exactly the wanted ranks that are not there |
| `PoolRuns.StatusIsOneQuery` | internal/controller/daospool_controller.go:319-327 | In every run state, rebuild, disabled targets and query time come from one query; the time is when its container started if Kubernetes says so and else when it was read, in whole seconds |
| `PoolRuns.NoSecondCreate` | internal/controller/daospool_controller.go:296-306 | Once a UUID is on record no create is started, nor a create Job sent by polling, unless an answer in between carried an empty UUID |
| `PoolScenes.EmptyUuidAllowsCreate` | internal/controller/daospool_controller.go:319-321 | A run in which a UUID is on record, a query answers with an empty one, and the next "not found" starts a create |
| `PoolRuns.DestroyIsGated` | internal/controller/daospool_controller.go:724-738 | Destroy runs only for an object being deleted, with the approval and a UUID on record |
| `PoolRuns.FinalizerOutlivesPool` | internal/controller/daospool_controller.go:724-779 | An approved pool with a UUID is released only after destroy succeeded or found nothing |
| `PoolRuns.StalledOnceAtThird` | internal/controller/daospool_controller.go:753-768 | DestroyStalled is sent exactly by the passes that read a failed destroy with two failures on record: over every run once from the third recorded failure on, plus once for each such pass that lost its status |
| `PoolScenes.StalledTwice` | internal/controller/daospool_controller.go:753-768 | A run in which DestroyStalled is sent twice |
| `PoolDrift.RepairsAreConserved` | internal/controller/daospool_controller.go:383-408 | With a fixed spec and a DAOS that does what the arguments of each Job say, ranks read from the list and values from the property, operations started plus drift left is constant, so at most four are started |
| `PoolDrift.JobsNameTheDrift` | internal/controller/daospool_controller.go:203-216 | In every such run a repair Job still to run names exactly what DAOS lacks: the missing ranks and no other, the mode or healing wanted, or the ACL |
| `PoolDrift.QuietPassEndsRepair` | internal/controller/daospool_controller.go:383-420 | After a pass that reads an answer, starts nothing and holds no failure, no operation is ever started |
| `PoolDrift.DriftGetsRepaired` | internal/controller/daospool_controller.go:383-408 | While drift is left and not held back, such a pass starts one operation and reduces it by one |
| `PoolEdges.RetriedExactly` | internal/controller/daospool_controller.go:296-408 | In every run, after the last failure of an operation and in the same generation, a pass starts it again if and only if no call fails, it is its turn, and it is the ACL or a stored pass in between replaced the reason on record |
| `PoolEdges.AclFailureIsNeverSeen` | internal/controller/daospool_controller.go:391 | In every run the reason the ACL check looks for is never the one on record |
| `PoolScenes.FailedRepairRearms` | internal/controller/daospool_controller.go:387-416 | For extend, reintegration mode and self_heal, a run in which it fails, is held back by one query that records Ready, and is started again by the next, in one generation |
| `PoolEdges.RecordedAclExactly` | internal/controller/daospool_controller.go:694-705 | In every reachable state the recorded ACL hash, stamped by a create or an overwrite, is that of the ACL the Job wrote if and only if the ACL of the spec was the same, by its hash, when the Job was created and when it was read |
| `PoolScenes.EditedAclIsRecordedUnwritten` | internal/controller/daospool_controller.go:704-705 | A run in which an ACL edited while a Job runs is recorded as applied, differs from what the Job wrote, and leaves no drift to see |
| `PoolExact.QueriedExactly` | internal/controller/daospool_controller.go:311-419 | A query is copied as a whole, properties it did not get kept; then one repair starts, the first that is due and did not fail for this spec, with arguments that name it, or the reason says how the pool is |
| `Container.ContainerController.RfExceeded` | internal/controller/daoscontainer_controller.go:360-410 | The judgement of a refused container equals `Judge` |
| `Container.ContainerController.Reconcile` | internal/controller/daoscontainer_controller.go:218-343 | One pass equals the specification `Pass`; its branches are spelled out in `ContainerExact` |
| `ContainerRuns.HealIsJustified` | internal/controller/daoscontainer_controller.go:360-410 | Behind every heal Job there is, started or sent by polling, in every run of both controllers with stale copies: one pool query that ran, by its container start where Kubernetes gives it and else by when it was read, no earlier than a refused container query did, said whole, and was judged under an opted-in pool last known to be incremental |
| `ContainerRuns.HealJobsRest` | internal/controller/daoscontainer_controller.go:360-496 | Every heal Job rests on a judgement of a whole and fresh pool, made in the pass that sends it if and only if no heal was on record; otherwise on that of the stored pass that put it there, and it repeats an earlier Job if and only if a pass in between took the result and lost its status |
| `ContainerEdges.HealIsSentAgain` | internal/controller/daoscontainer_controller.go:455-463 | A run in which a heal succeeds, the pass that reads it loses its status, and the next sends a heal Job without judging, though the pool is no longer opted in |
| `ContainerRuns.WholeWait` | internal/controller/daoscontainer_controller.go:275-409 | Over a whole wait: one mark, the time of the refused query; no query meanwhile; every judging pass but the last saw the pool whole, known from before only, and time left; the first that did not ended it |
| `ContainerRuns.MarkSurvivesExactly` | internal/controller/daoscontainer_controller.go:230-409 | In every reachable state a mark survives a pass if and only if the pool or its system is missing, or the object is not being deleted and lacks its finalizer or its pool a UUID or the judgement waits; it clears exactly on a whole and fresh pool, and times out exactly on a stale one after three minutes |
| `ContainerEdges.WaitOutlivesItsTime` | internal/controller/daoscontainer_controller.go:230-300 | A run in which a wait goes on three minutes after the refused query, because the pass finds no DaosPool |
| `ContainerRuns.NoSecondCreate` | internal/controller/daoscontainer_controller.go:306-316 | Once a UUID is on record no create is started, nor a create Job sent by polling, unless an answer in between carried an empty UUID |
| `ContainerEdges.EmptyUuidAllowsCreate` | internal/controller/daoscontainer_controller.go:306-330 | A run in which a UUID is on record, a query answers with an empty one, and the next "not found" starts a create |
| `ContainerExact.RefusedExactly` | internal/controller/daoscontainer_controller.go:298-409 | A refusal is judged by when the query ran: healed exactly on a pool seen whole since; waiting exactly on a whole one known from before, for three minutes; given up otherwise |
| `ContainerRuns.DestroyIsGated` | internal/controller/daoscontainer_controller.go:498-515 | Destroy runs only for an object being deleted, with the approval and a UUID on record |
| `RankOp.FindBlocked` | internal/controller/daossystem_rankop.go:81-116 | The loops find the administratively excluded ranks and those without an engine |
| `RankOp.Unprotected` | internal/controller/daossystem_rankop.go:124-150 | The loop finds the pools a reintegrate would empty |
| `RankOp.CachesOn` | internal/controller/daossystem_rankop.go:157-173 | The loop finds the bare caches an exclude would hit |
| `RankOp.RankOps.Reconcile` | internal/controller/daossystem_rankop.go:229-337 | One pass equals the specification `Pass` |
| `RankOpRuns.RenderedRankSet` | internal/controller/daossystem_rankop.go:60 | A printed set of ranks and ranges is accepted as a rank set and names exactly the covered ranks |
| `RankOpRuns.RequestIsRead` | internal/controller/daossystem_rankop.go:198-215 | An operation, a colon and a printed rank set is read back as just that operation and set |
| `RankOpRuns.GuardsHoldAtCreation` | internal/controller/daossystem_rankop.go:245-287 | Whenever a Job is created, for every text, every guard holds of every requested rank and pool |
| `RankOpExact.RequestReadsExactly` | internal/controller/daossystem_rankop.go:198-215 | A text is a request if and only if one of the four operations stands before its first colon and only numbers and ranges between the commas after it |
| `RankOpExact.CreatedExactly` | internal/controller/daossystem_rankop.go:245-291 | The Job goes out if and only if the system is formatted, a reintegrate names no barred rank and none without an engine, the pools agree or their say was waived, the name is free and the API goes along; with the operation and ranks of the request |
| `RankOpExact.RefusedExactly` | internal/controller/daossystem_rankop.go:242-285 | Whatever is not allowed is answered as failed and touches no Job |
| `RankOpExact.ReadExactly` | internal/controller/daossystem_rankop.go:297-337 | What each answer leads to: success only without a failed rank or, for two operations, with nothing to do; asked again exactly if it never reached DAOS within three minutes of the time on record |
| `RankOpRuns.AnswersAreCounted` | internal/controller/daossystem_rankop.go:229-337 | Over every run a request is answered at most once, plus once for each answer whose patch failed |
| `RankOpRuns.AnswerEndsRequestExactly` | internal/controller/daossystem_rankop.go:229-337 | If the patch of an answer goes through, no later pass finds, runs, reads or answers the request; if it fails, and only then, the next pass finds it again |
| `RankOpRuns.FailedClearRunsAgain` | internal/controller/daossystem_rankop.go:287-337 | A run in which a failed patch makes a finished operation run a second time |
| `RankOpRuns.RetriedExactly` | internal/controller/daossystem_rankop.go:236-337 | A result read is sent again if and only if it never reached DAOS and no time is on record for the request or three minutes from it are not over; every other result is answered with |
| `RankOpRuns.RequestTimeIsFixed` | internal/controller/daossystem_rankop.go:236-242 | Once a time is on record for a request it never moves, whatever is lost or fails |
| `RankOpRuns.RefusedJobAnswersNextRequest` | internal/controller/daossystem_rankop.go:258-284 | A run in which a reintegrate is refused while its Job runs on, and the drain requested next is answered with that Job's result |
| `RankOpRuns.ResultIsForeignExactly` | internal/controller/daossystem_rankop.go:287-337 | Over every run, with requests edited at any time, the result read is another request's if and only if a Job for something else was open as the human wrote the request and no result was read since |
| `Replicas.DriveConflicts` | internal/discovery/node.go:97-115 | The loops find every serial sighted more than once, with its nodes sorted |
| `Replicas.EligibleNodesShareNoDrive` | internal/discovery/node.go:97-115 | A node that is not excluded shares no serial with another |
| `Replicas.ExcludedExactly` | internal/discovery/node.go:95-115 | A node is excluded if and only if one of its facts shares a serial with another fact or lists one twice |
| `Replicas.TwiceOnOneNodeExcludes` | internal/discovery/node.go:95-115 | A lone node that lists a serial twice is excluded |
| `Replicas.SelectReplicas` | internal/controller/daossystem_controller.go:209-268 | The loops compute `Select` |
| `Replicas.ChoiceIsSound` | internal/controller/daossystem_controller.go:232-261 | Distinct, eligible, never more than wanted, earlier replicas in front and in order, and fewer than wanted only when every eligible node is in |
| `Replicas.ChoiceExactly` | internal/controller/daossystem_controller.go:232-261 | The choice is the first wanted of the earlier replicas still eligible, in their order, then the first of the other eligible nodes, in theirs, as far as there is room |
| `Replicas.ChosenShareNoDrive` | internal/controller/daossystem_controller.go:209-261 | A chosen node shares no drive with another node |
| `Replicas.FullChoiceSticks` | internal/controller/daossystem_controller.go:226-261 | A full list of still eligible nodes is chosen again unchanged |
| `Replicas.AdditionsNeverMoveReplicas` | internal/controller/daossystem_controller.go:226-261 | Across any run of conflict-free additions a full list never changes |
| `Replicas.FullListKeptExactly` | internal/controller/daossystem_controller.go:168-261 | A pass keeps a full list if and only if there are enough nodes and all of the list is still eligible |
| `Replicas.ReplicasNeverMoveExactly` | internal/controller/daossystem_controller.go:168-261 | Over any run of passes a full list never moves if and only if every pass meets that condition |
| `Replicas.EarlyReturnForgetsReplicas` | internal/controller/daossystem_controller.go:168-195 | A pass with too few nodes forgets the list and an earlier-sorting node takes the role |
| `BdevLayout.FormatLayouts` | internal/hostprep/bdevlayout.go:122-134 | The loop prints the map ordered by index |
| `BdevLayout.PrintsOneText` | internal/hostprep/bdevlayout.go:122-134 | A map prints to one text, whatever order the map is walked in |
| `BdevLayout.ParseLayouts` | internal/hostprep/bdevlayout.go:102-119 | The loop parses every part, or fails at the first bad one |
| `BdevExact.PartReadsExactly` | internal/hostprep/bdevlayout.go:102-119 | A part is read if and only if it is a number, an equals sign, a kind, a colon and some devices, and as those |
| `BdevLayout.LayoutsRoundTrip` | internal/hostprep/bdevlayout.go:101-134 | Parsing a printed map gives it back, for every map of sorted, separator-free layouts |
| `BdevLayout.SameTextExactly` | internal/hostprep/bdevlayout.go:48-54 | Texts are equal if and only if kinds are and the stored devices, split at commas, are the wanted ones |
| `BdevLayout.SameTextIsSameDrives` | internal/hostprep/bdevlayout.go:48-54 | Without commas in a device, text equality is equality of kind and device multiset |
| `BdevLayout.CommaHidesChange` | internal/hostprep/bdevlayout.go:48-54 | A stored device with a comma passes for two |
| `BdevCheck.ReadLayout` | internal/hostprep/bdevlayout.go:71-99 | The nested loops describe a file of one kind without VMD, and no other |
| `BdevExact.DescribesExactly` | internal/hostprep/bdevlayout.go:71-99 | A config describes a layout if and only if it attaches files and no drives or drives and no files and mentions no VMD; then each as often as attached |
| `BdevCheck.CheckLayouts` | internal/hostprep/bdevlayout.go:140-162 | The loop reports exactly the engines whose stored layout differs, in order, or fails when a file cannot be read |
| `BdevCheck.EngineLayouts` | internal/controller/daossystem_server.go:91-123 | The nested loops with their early break compute what each engine wants |
| `BdevExact.WantedExactly` | internal/controller/daossystem_server.go:91-123 | An engine wants a layout if and only if it has a device and its tiers are all NVMe, or all kernel devices or files; then each device as often as listed |
| `BdevExact.LastEngineDecides` | internal/controller/daossystem_server.go:91-123 | Of several engines with one index the last that wants anything decides |
| `BdevCheck.ReportedExactlyWhenChanged` | internal/hostprep/bdevlayout.go:136-162 | From the spec through the flag: an engine is reported exactly when its readable stored config differs in kind or device multiset |
| `Shell.QuotedIsOneWord` | internal/dmg/dmg.go:679-682 | A shell reads the quoted text as the one word it quotes |
| `Shell.QuoteReads` | internal/dmg/dmg.go:679-682 | In any context quoted text adds exactly itself to the word |
| `Shell.DmgLine` | internal/dmg/dmg.go:370-376 | The loop appends the quoted arguments |
| `Shell.DmgLineReads` | internal/dmg/dmg.go:370-376 | The line is read as dmg -j and exactly the arguments |
| `Shell.WithAclFile` | internal/dmg/dmg.go:686-700 | The loops build the script, or return the command when there are no entries |
| `Shell.AclScriptReads` | internal/dmg/dmg.go:686-700 | The script is read as printing the entries to the file and then running exactly the original command |
| `System.Reconciler.Reconcile` | internal/controller/daossystem_controller.go:421-461 | The steps in order, each ending the pass on an error; the status stored at the end or not at all; a rank or start result lets the next query go at once; equal to `Pass` |
| `System.RestartExcludesOthers` | internal/controller/daossystem_controller.go:421-431 | For every pass that finds or begins a restart: it gets to the format, rank and engine steps if and only if the restart step is skipped, or the pods are listed, the restart is over by what the pass was given (time passed, failed stop or start, certificates not swapped, member list undecodable or all joined) and its approvals can be removed; otherwise nothing else changes |
| `System.LostEndHappens` | internal/controller/daossystem_controller.go:421-431 | A run in which the pass that gives up on a rotation loses its status: the format gate ran and the rotation is still in progress |
| `System.PassProjects` | internal/controller/daossystem_controller.go:421-461 | A pass of the system is a pass of each component or nothing to it, stored or lost together |
| `System.EnginesSeeThisPass` | internal/controller/daossystem_controller.go:433-461 | The engine step is judged by the rows the format step has just mirrored, and starts nothing while the membership is unknown, servers are off or a rank request is left |
| `System.QueryGoesAtOnceExactly` | internal/controller/daossystem_controller.go:433-461 | The hold on the next query is lifted exactly by a rank result that could be read or a start result, and else as the format step left it |
| `System.ComponentsKeepTheirPromises` | internal/controller/daossystem_controller.go:421-491 | In every run of the whole system the history of each of the four components is that of a run of the component alone, so every theorem about its runs holds; the central ones side by side |
| `System.ReintegrateFitsMembers` | internal/controller/daossystem_rankop.go:245-262 | In every run of the whole system a reintegrate Job goes out for a rank that the latest member list calls administratively excluded, or without an engine on a node whose last entry has no ready server, only if its row is shown as unresponsive |
| `System.GuardSeesExclusion` | internal/controller/daossystem_format.go:514-517 | After `markUnresponsive` the reintegrate guard sees an administrative exclusion exactly if it is on a node that is not down |
| `System.GuardSeesMissingEngine` | internal/controller/daossystem_format.go:514-517 | Likewise it sees a rank without an engine exactly if its node is not known to be down and yet has no ready server |
| `System.GuardedNodeHasNoWorkload` | internal/controller/daossystem_rankop.go:81-116 | On such a node some entry has no workload, or there is none |

## Left out

- Cache staleness of the DaosSystem, DaosPool and Job objects a controller reads for itself, API write conflicts and
  the expiry of finished Jobs: the model reads its own object as stored. Only the DaosPool copy a container reads may
  be old.
- A delete of a Job that the API server accepts but answers with an error: the model treats a failed delete as none.
- Job names: taken to be distinct per purpose, although shortened names could collide.
- The difference between when a pool query ran and when it was read, where Kubernetes does not say when its container
  started: the model, like the code, then takes the reading time as the query time.
- ContainerRuns.HealIsJustified: compares query times at the resolution the code has them, whole seconds for stored
  and container start times.
- RankSet.ParseRankSet: a range ending at the largest 64-bit number, on which the Go loop does not end.
- EngineRuns.GiveUpAfterThree: for memberships that list each rank once.
- Pool.PoolController.Reconcile: the arguments of a Job are those the repair is about; labels, sizes and paths are not
  among them.
- Replicas.EarlyReturnForgetsReplicas: of the early returns only the one for too few nodes is modelled.
- Shell.AclScriptReads: characters whose meaning outside quotes depends on more than quoting are not read at all.
- Order of time between passes of one system: a run of `System` takes the clock not to go back from one look at the
  engines to the next.
- FullStop.Controller.Step: the start of a restart is kept to the nanosecond, where Kubernetes cuts it to the second,
  so a timeout can come up to a second later than in the operator.
- Locks around the package maps: a pass is one step.
- X.509 generation and expiry, and the decision when certificates are due.
- JSON decoding and the classification of dmg errors by text: an answer is a value of a datatype.
- Condition messages, Events, requeue delays other than the engine restart's.
- Space warnings, the Degraded condition, tier ratios, and the observed version.
- Rendering of configuration, workloads, Services, telemetry, client agents, host preparation and the S3 gateway.
- External systems, except that they are never formatted.
- The kubectl plugin.
