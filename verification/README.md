# Proofs about the deployment agent

The repository is an agent that runs deployments on a customer's Docker host. This project models the parts of it
where a wrong branch loses data, runs two versions at once, prints a secret or reports something untrue, and proves
what those parts are for. `dafny verify dfyconfig.toml` checks all of it.

## What is modelled

**Redaction of literal secrets** (`SecretMatcher`, `SecretRedaction`). The matcher is a trie of reversed secrets with
failure links and the longest output propagated along them; the scan runs from right to left. Against it stands the
naive search for the longest secret at each position. The boundary-only tokens are merged into the same table, and a
greedy pass rewrites the text. Main results: `SecretMatcher.CreateLiteralSecretMatcher` with
`SecretRedaction.ScanSubstrings` (the automaton is the naive search) and `SecretRedaction.CompileAndRedact` with
`SecretRedaction.RedactionIsRight` (what is kept starts no token, what is hidden is one, and nothing else changes), and
for the classes of tokens in plain words `SecretRedaction.NoSecretIsKept`.

**Rollouts against a Docker host that acts on its own** (`DockerHost`, `VolumeSnapshots`, `WorkerShutdown`,
`WorkerRolloutPlan`, `WorkerRollout`, `AppRollout`). A call may fail before or after it took effect, processes exit and
containers vanish between any two calls, running consumers write the volume, and the agent may die anywhere (`alive`
turns false and later calls have no effect). The history records every start with the containers running just before
it, every readiness check that passed or gave up, every signal, every removal, every restore, and how often something
went wrong outside the agent: it died, a call failed that was in order, a container went by itself or outlived SIGKILL
(`DockerHost.Mishap`). So contracts come in two kinds: what holds whatever fails, and what a run achieves when nothing
goes wrong but that a check gives up (`DockerHost.Calm`). Main results:
`WorkerRollout.DeployWorkerRuntime`, `WorkerRollout.NoOverlapEver`, `WorkerRollout.VolumeWritersEver`,
`AppRollout.DeployApp`, `AppRollout.SingleWriterEver`.

**Where those promises end** (`HostRuns`, `WorkerRolloutRuns`, `AppRolloutRuns`). Every call is the function
`DockerHost.Do` of the world and of what the environment chose (`DockerHost.Docker.Perform`), so a run is a list of
calls, choices and replies, and a lemma about such a list shows what can happen. Main results:
`WorkerRolloutRuns.DeployWithRetries` and `AppRolloutRuns.DeployAppWithRetries`, with runs in which a condition of
theirs, or of `DeployWorkerRuntime` and `DeployApp`, fails and the promise with it.

**Receipts that survive a crash** (`WorkerJob`, `VolumeWipe`). A scheduled job's command starts at most once until its
cleanup, over any sequence of work items and deaths. A volume is never removed again once a database was set up on its
replacement for the same repository generation, and a database is never set up on anything but a replacement.

**Formats** (`PgDumpHeader`, `BackupAdmission`, `TarArchive`, `DockerLogs`, `LineSplitting`). Readers are proved against
writers, and writers against readers, for all inputs in range, together with what more input may change.

**Loops and reports** (`HeartbeatLoop`, `WorkReporting`, `WorkScheduling`, `BuildLogPublishing`). Each is a class whose
methods are the atomic steps between two awaits, with an invariant kept by every step in any order.

### Assumptions

- A container that is not running starts only when the agent starts it; "restarting" counts as running. Containers are
  identified by name, and nobody else creates containers under the names of a rollout's candidates.
- Container names shorten ids to eight characters, so names of different deployments can collide. `NoOverlapEver` says
  so: it asks that what runs in the candidate slots when the run begins is the deployment's (`SlotsAreOwn`), and
  `WorkerRolloutRuns.CollidingSlotOverlaps` is a run with two candidates that needs it.
- Which run of observations a readiness check accepts is left open, but it accepts only a container it saw running.
  How release jobs (pre-activation, verification) end, and whether an existing candidate matches its deployment, is
  given from outside (`AppRollout.Conditions`).
- Renaming a file is atomic, and a receipt that was written does not disappear. Callbacks that log do not throw, and
  stopping a lease's renewal does not fail.
- Integers of the formats are unbounded, text decoding is a parameter, and characters are Dafny's `char` where the
  source has UTF-16 code units.

### What the proofs found

Promises that hold under a condition only. Each comes with the condition and with a run, or a method that carries one
out, for the other case.

- A failed worker deploy keeps what the volume held before. So it does when it found something live to replace
  (`AnyLiveOther` in `WorkerRollout.DeployWorkerRuntime`), as any container of the service outside the candidate slots
  is that is still there at the end, and when the slot held the snapshot of an earlier attempt. With neither, say for a
  service scaled to zero, the candidate starts with no snapshot taken and what it wrote stays: on any such host and for
  any contents by `WorkerRolloutRuns.FailedFirstCandidateLosesContents`.
- Retries keep it too. So they do until an attempt ends with a snapshot in its slot, contents not in doubt, and a
  previous container started (`StartedBesideSnapshot` in `WorkerRolloutRuns` and `AppRolloutRuns`): that container
  goes on to write, and the next attempt reuses the old snapshot. Three ways lead there: the agent dies after the
  restart, the deletion of the restored snapshot fails, or the job that takes the snapshot fails after the snapshot is
  in place. The last is `SnapshotOutlivesItsAttempt`, and from any such world `RetryRestoresStaleContents` is a retry
  that loses what was written, for workers and for apps.
- A live app has the confirmed route. So it has unless verification may decide to roll back without a candidate
  adopted (`KeepsTraffic(app, previous) || adopted` in `AppRollout.DeployApp`). Else the return can stay unconfirmed
  and the second write be refused: `AppRolloutRuns.LiveWithoutTraffic` ends with the route on a container that was
  retired.
- An app rollout that fails before the cutover and reports a preserved runtime leaves the route alone or confirmed.
  After a readiness failure it does with a volume, or when no earlier run rejected the release; after a halt, when not
  both an earlier run rejected the release and there is a pre-activation job (two clauses of `AppRollout.DeployApp`).
  Else `AppRolloutRuns.PreservedWithoutConfirmedRoute` and `AppRolloutRuns.HaltedWithoutConfirmedRoute` end with an
  unconfirmed write.
- A snapshot does not outlive a rollout that succeeded. That of an earlier attempt does when the candidate is adopted:
  going live then leaves the slot as it is (`AppRollout.TrueResult` in the contract of `DeployApp`).
- A live candidate is not removed by the run that made it live. So it is not unless the control plane records it as
  its own predecessor (`AppRollout.LiveCandidateIsKept`); then, if it is gone when the run begins,
  `AppRolloutRuns.OwnPredecessorIsRetired` routes the traffic to it and removes it.
- A wipe is not repeated, and an unreadable receipt stops it. So it is with a repository generation
  (`VolumeWipe.NeverRemovedAgain` and `VolumeWipe.WipeHost.HandleWipeVolume`). Without one, every undisturbed attempt
  destroys the volume, whatever was set up on it and whatever the receipt says (the last clause of
  `HandleWipeVolume`, and twice in a row `VolumeWipe.WipeTwice`).
- A heartbeat loop that was stopped does not tell the agent to exit. It does only if a tick call was under way that
  could bring the failures to the limit (`HeartbeatLoop.AfterStop`), and then it can (`HeartbeatLoop.ExitAfterStop`,
  and from the beginning `HeartbeatLoop.StoppedLoopExits`).
- A job reported as succeeded has run. One that an inspection newly reports so has run exactly when its container had
  been started (`WorkerJob.JobHost.InspectWorkerJob`): Docker reports exit code 0 for one that was not, and
  `WorkerJob.NeverStartedSucceeds` is such a job. A start reports success only of a command that ran.
- Folding the outcomes of completion reports is wrong for a refusal after an accepted one; the retry loop never
  produces that order (`WorkReporting.AcceptedThenRefused`, `WorkReporting.UpdaterIffMayBeCompleted`).

## Model

| member | source | states |
|---|---|---|
| SecretMatcher.LongestSecretIsUpperBound | packages/runtime/src/logging.ts:902-916 | the naive answer is at least as long as any secret the text starts with |
| SecretMatcher.LongestSecretIsAttained | packages/runtime/src/logging.ts:902-916 | a non-zero naive answer is the length of a secret standing there, inside the text |
| SecretMatcher.LongestSecretDeterminedBySet | packages/runtime/src/logging.ts:902-916 | the answer depends on the set of non-empty secrets only |
| SecretMatcher.UniqueSortedKeepsAnswers | packages/runtime/src/logging.ts:271-275 | the list that is compiled has every non-empty value once, longest first, and gives the same answers as the values handed in |
| SecretMatcher.ChaseStep | packages/runtime/src/logging.ts:834-836 | following a failure link loses no candidate for extension, and the word gets strictly shorter |
| SecretMatcher.ChaseEnd | packages/runtime/src/logging.ts:834-838 | where the chase stops, the transition (or the root) is the longest word that the text extended by the character starts with |
| SecretMatcher.Advance | packages/runtime/src/logging.ts:832-838 | the failure-chasing loop ends and leads from the longest word of a text to the longest word of the text with one more character in front |
| SecretMatcher.InsertSecret | packages/runtime/src/logging.ts:800-816 | inserting a secret from its end keeps the trie, makes all of its suffixes words and marks exactly the secrets |
| SecretMatcher.OutputPropagates | packages/runtime/src/logging.ts:828-831 | a word's own output, or else that of its failure, is the naive answer on the word |
| SecretMatcher.LongestWordDecides | packages/runtime/src/logging.ts:907-911 | at the state of the longest word a text starts with, the stored output is the naive answer for the text |
| SecretMatcher.EveryStateIsQueued | packages/runtime/src/logging.ts:818-841 | when the queue runs empty every state but the root has been dequeued |
| SecretMatcher.DequeueState | packages/runtime/src/logging.ts:822-841 | dequeuing one state makes its output final, links and queues its children and keeps the breadth-first order |
| SecretMatcher.CreateLiteralSecretMatcher | packages/runtime/src/logging.ts:796-843 | for any secrets the result is a trie whose failure links lead to the longest proper prefix that is a word and whose outputs are the naive answers |
| SecretRedaction.TokensOfMember | packages/runtime/src/logging.ts:223-253 | a token is in a partition exactly when it is given and classified so |
| SecretRedaction.PartitionRedactionTokens | packages/runtime/src/logging.ts:238-253 | every token goes to the one partition its class names, in order |
| SecretRedaction.LongestBoundaryMeaning | packages/runtime/src/logging.ts:871-891 | the reference for boundary tokens is the longest one that stands as its own lexeme there |
| SecretRedaction.AddTokenMatches | packages/runtime/src/logging.ts:878-888 | the loop over occurrences ends and raises the table exactly where the token stands as its own lexeme and is longer |
| SecretRedaction.AddBoundaryMatches | packages/runtime/src/logging.ts:871-891 | afterwards the table is the pointwise maximum with the boundary reference, and the flag says whether it was raised |
| SecretRedaction.ScanSubstrings | packages/runtime/src/logging.ts:902-916 | the right-to-left scan leaves the naive answer at every position, and says whether there is any match |
| SecretRedaction.MatchTableInBounds | packages/runtime/src/logging.ts:925-934 | no match reaches beyond the text |
| SecretRedaction.RedactionSpellsOriginal | packages/runtime/src/logging.ts:922-936 | kept and masked pieces put together are the text that was redacted |
| SecretRedaction.NothingStartsWhereKept | packages/runtime/src/logging.ts:922-936 | no substring token starts, and no boundary token stands as its own lexeme, at a kept position |
| SecretRedaction.MaskedPieceIsLongestToken | packages/runtime/src/logging.ts:922-936 | a masked piece is itself a token matching where it stands, and the longest that does |
| SecretRedaction.RedactLiteralSecretsWithMatcher | packages/runtime/src/logging.ts:893-937 | the text returned, on the early exits too, is the greedy rewrite of the naive table |
| SecretRedaction.RedactionIsRight | packages/runtime/src/logging.ts:849-937 | for any non-empty tokens and any text: the pieces spell the text, nothing kept starts a token by its class, and everything masked is a token of the list |
| SecretRedaction.NoSecretIsKept | packages/runtime/src/logging.ts:223-253 | for any text, with the characters and bounds spelled out: a token of at least three characters that is not a platform value, or is one of more than twelve characters or no single word, is read at no kept position; any other is at no kept position where it stands alone |
| SecretRedaction.MatchesAre | packages/runtime/src/logging.ts:223-253 | where a token is masked, in plain words: one of at most two characters, or a platform value of at most twelve that is a single word, only where no letter, digit or underscore is beside it, any other wherever it is read |
| SecretRedaction.RenderingIs | packages/runtime/src/logging.ts:922-936 | every masked piece becomes [REDACTED], every kept one is left as it is |
| SecretRedaction.LexicalCharactersAre | packages/runtime/src/logging.ts:863-869 | the characters that join a lexeme are the letters, the digits and the underscore |
| SecretRedaction.SingleWordsAre | packages/runtime/src/logging.ts:223-236 | what counts as a single word |
| SecretRedaction.CompileAndRedact | packages/runtime/src/logging.ts:849-861 | partitioning the tokens, building the matcher, scanning and rewriting yield exactly the rendering of those pieces |
| DockerHost.Docker.RemoveContainer | agent/src/docker-api.ts:811-829 | on success the container is gone, a running one is refused without force, and a failed call may have removed it; unless something goes wrong it fails for that refusal only |
| DockerHost.Docker.UpdateRestartPolicy | agent/src/docker-api.ts:892-899 | sets the policy of this container only, and tells a missing one apart |
| DockerHost.Docker.KillContainer | agent/src/docker-api.ts:872-885 | asks for at most this one signal, surely on success; a container that is gone or does not run is told apart and receives nothing; after SIGKILL it does not run, unless something goes wrong |
| DockerHost.Docker.CreateContainer | agent/src/docker-api.ts:905-940 | at most this container appears, stopped and only under a free name; it is there on success, and gone again when its files did not arrive |
| DockerHost.Docker.StartContainer | agent/src/docker-api.ts:942-944 | at most this container starts, recorded with what ran just before; a running one is left as it is |
| DockerHost.Docker.StopContainer | agent/src/docker-api.ts:844-865 | on success the container does not run, and it fails only when something goes wrong |
| DockerHost.Docker.TakeSnapshot | agent/src/worker-runtime.ts:648-681 | the slot receives the volume's contents unless it already holds a snapshot |
| DockerHost.Docker.RestoreSnapshot | agent/src/worker-runtime.ts:683-707 | the volume takes the slot's contents, and without a mishap does so whenever there is a snapshot; an unfinished restore leaves any contents, and the history says so |
| DockerHost.Docker.KeepSnapshot | agent/src/worker-runtime.ts:738-762 | the snapshot moves out of the slot and is kept |
| DockerHost.Docker.CheckReadiness | agent/src/worker-runtime.ts:354-469 | a check that passes saw the container running; every check is recorded, as passed or as given up |
| VolumeSnapshots.AssertNoUnexpectedVolumeConsumer | agent/src/worker-runtime.ts:574-586 | on success only the allowed containers run on the volume; unless something goes wrong it fails only for another one that does |
| VolumeSnapshots.SnapshotVolume | agent/src/worker-runtime.ts:1339-1342 | on success the slot holds a snapshot and nothing runs on the volume; a first snapshot is of the contents from before any candidate; unless something goes wrong it fails only while something runs on the volume |
| VolumeSnapshots.RestoreVolume | agent/src/worker-runtime.ts:1420-1424 | nothing starts, every restore unpacks the slot, and after success the volume holds its contents, the earlier ones; unless something goes wrong it fails only without a snapshot or while something runs on the volume |
| VolumeSnapshots.ResumableIsConserved | agent/src/worker-runtime.ts:1412-1415 | a resumable state has the earlier contents in the volume or in a snapshot |
| WorkerShutdown.WaitUntilStopped | agent/src/worker-shutdown.ts:84-101 | stopped means not running, not stopped means the deadline has passed; it looks every half second, and the time slept ends at the deadline |
| WorkerShutdown.StopRunning | agent/src/worker-shutdown.ts:151-170 | the policy's signal first, SIGKILL only after the grace period, and as many signals as the outcome claims; unless something goes wrong the outcome is a stop |
| WorkerShutdown.StopWorkerContainerGracefully | agent/src/worker-shutdown.ts:113-170 | an outcome that claims a stop is true, the restart policy is off, no SIGKILL comes before the grace period is over, and the time slept is at most the grace period and 15 seconds; unless something goes wrong the outcome is a stop, and "already stopped" where nothing ran |
| WorkerShutdown.StopAllGracefully | agent/src/worker-runtime.ts:1200-1237 | one report for each container in order, a Docker error becomes "unconfirmed", every report that claims a stop is still true at the end, as all do unless something goes wrong, and no other container is signalled |
| WorkerRolloutPlan.StopFirstIff | agent/src/worker-rollout-plan.ts:75-107 | the plan stops first exactly when there are candidates and a volume with another container, or no_overlap with a live container of another version |
| WorkerRolloutPlan.ReasonIs | agent/src/worker-rollout-plan.ts:75-107 | which reason a plan gives: a volume before no_overlap, scaled to zero, overlap with an older live version, or no previous version |
| WorkerRolloutPlan.NamesInOrder | agent/src/worker-rollout-plan.ts:59-74 | the names in a plan keep the order of the listing |
| WorkerRolloutPlan.PlanAccountsForAll | agent/src/worker-rollout-plan.ts:59-107 | every container is in exactly the list its name calls for: nothing is forgotten, no candidate is retired |
| WorkerRollout.EnsureContainer | agent/src/docker-api.ts:1030-1062 | creates or starts the candidate only, in a state where that is safe; on success it runs, and only something going wrong keeps it from that |
| WorkerRollout.PrepareCandidateSlot | agent/src/worker-runtime.ts:1040-1059 | a slot is kept only with a running container in it, whose policy is then unless-stopped, and is otherwise empty; no other container is touched |
| WorkerRollout.EnsureInSlot | agent/src/worker-runtime.ts:1378-1385 | one candidate ensured in its slot: a safe start, slots whose running containers are the deployment's stay so, and the result is a fresh container with the deployment's label, its volume and unless-stopped, or the one that ran there; a replica counts as no longer adopted only if it does not run or was started here |
| WorkerRollout.DiscardFailedCandidates | agent/src/worker-runtime.ts:1254-1291 | "stopped" means that every candidate is gone, on the graceful and on the forced path, and unless something goes wrong they are; nothing else is removed |
| WorkerRollout.ResetCandidates | agent/src/worker-runtime.ts:1309-1321 | on success every candidate of an interrupted attempt is gone; it fails only when something goes wrong |
| WorkerRollout.StopEverything | agent/src/worker-runtime.ts:1305-1338 | the previous containers are stopped only after a look that found no other container on the volume, and after every candidate is gone; unless something goes wrong it fails only for such a container |
| WorkerRollout.StopPrevious | agent/src/worker-runtime.ts:1330-1338 | on success no previous container runs; there is a report for each of them, and it fails only when something goes wrong |
| WorkerRollout.PrepareStopFirst | agent/src/worker-runtime.ts:1305-1342 | on success nothing of the service runs, every previous container is reported as stopped and the slot holds a snapshot; once a previous container was touched, no candidate runs; unless something goes wrong it fails only for another container on the volume |
| WorkerRollout.RestorePreviousWorkerRuntime | agent/src/worker-runtime.ts:782-861 | previous containers restart only while no candidate runs and only if a stop dealt with them, the volume's other consumers are previous ones, "preserved" means one of them passed a check, and "completed" that each one to bring back was found running or started, with unless-stopped; unless something goes wrong, all are brought back where they and the volume allow it, and if nothing is preserved each was given up on |
| WorkerRollout.RestartAll | agent/src/worker-runtime.ts:826-861 | restarting several previous containers keeps every start safe, and without an error each was found running or started, with unless-stopped, and passed or was given up on; unless something goes wrong it ends early only for a container that is gone or another one on the volume |
| WorkerRollout.SettleSnapshot | agent/src/worker-runtime.ts:1441-1456 | the snapshot is deleted only when it was restored and is otherwise kept: the contents are not lost; unless something goes wrong the slot is empty afterwards |
| WorkerRollout.AbandonStopFirst | agent/src/worker-runtime.ts:1412-1456 | the catch block of a stop-first rollout: safe restarts only, earlier contents kept, flags true, and after a completed rollback each previous container was started again and no candidate is left; unless something goes wrong that is what happens |
| WorkerRollout.DiscardAndAbandon | agent/src/worker-runtime.ts:1399-1456 | the same from the failed candidates on, which alone are removed |
| WorkerRollout.AbortPreparation | agent/src/worker-runtime.ts:1343-1365 | a rollout that could not stop or snapshot restarts the previous version safely and never claims a completed rollback; unless something more goes wrong all are brought back, and if nothing is preserved what runs was given up on |
| WorkerRollout.Retire | agent/src/worker-runtime.ts:1491-1511 | retiring starts nothing, whatever may still run is reported, and every other retired container is gone or named as one that could not be removed; unless something goes wrong nothing is reported or named, no container is removed while it runs, and no other one is touched |
| WorkerRollout.StoppedNamesAre | agent/src/worker-runtime.ts:1503-1508 | the retired containers to remove are exactly those whose report claims a stop |
| WorkerRollout.CommitStopFirst | agent/src/worker-runtime.ts:1503-1514 | after success still nothing outside the candidate slots stands against a candidate, and every previous container is gone or named; unless something goes wrong all are gone and so is the snapshot |
| WorkerRollout.RolloutStopFirst | agent/src/worker-runtime.ts:1303-1514 | a stop-first run from its plan to its end: safe starts, earlier contents, true flags, each previous container started again by a completed rollback, every candidate passed its check on success; unhindered and without a mishap it commits and leaves nothing behind, or a candidate was given up on and the previous version is back |
| WorkerRollout.StartStoppedFirst | agent/src/worker-runtime.ts:1377-1514 | the same from the prepared host on |
| WorkerRollout.RolloutCandidateFirst | agent/src/worker-runtime.ts:1371-1514 | a candidate-first run: safe starts, no restore, "preserved" only for a container that passed a check, retired containers reported truly and gone or named, no failure without candidates, and contents that survive where the slot held a snapshot; without a mishap it fails only for a candidate that was given up on, keeps the live replicas that ran and removes its own |
| WorkerRollout.Survey | agent/src/worker-runtime.ts:1120-1169 | the containers planned around are all the service's containers but stopped leftovers, which are gone; none removed is recorded as live or a candidate, those planned around were there, and unless something goes wrong still are; it fails then only for a container of no service on the volume |
| WorkerRollout.LeftoversAreNotLive | agent/src/worker-runtime.ts:1120-1135 | a leftover is stopped, not recorded as live and no candidate |
| WorkerRollout.CandidateFirstIsClear | agent/src/worker-rollout-plan.ts:75-107 | when the plan starts candidates first, nothing that runs forbids it |
| WorkerRollout.OtherPresentIsPlanned | agent/src/worker-runtime.ts:1120-1169 | a container of the service outside the candidate slots that survived the survey was planned around as live |
| WorkerRollout.Converge | agent/src/worker-runtime.ts:1160-1600 | the planner's plan for what was found, carried out: all that the next row says from there on |
| WorkerRollout.DeployWorkerRuntime | agent/src/worker-runtime.ts:1079-1600 | whatever fails: nothing recorded as live goes before the plan, which is the planner's for what was found, told which of it is live; every start is safe; a failed run that found something live to replace or an earlier attempt's snapshot keeps the volume's earlier contents; a restore unpacks the first attempt's snapshot; the flags are true of what was observed; a completed rollback started every stopped previous container again; a failed run removes candidates only, and restarts no container that is hung or was found stopped and not recorded live; on success the candidates are the deployment's, kept running, and nothing replaced is left running or standing unreported. Unless something goes wrong: it ends before its plan only for a container of no service on the volume, fails after it only for a candidate that a check gave up on, and then leaves the previous version as it found it and says so; on success it leaves nothing behind |
| WorkerRollout.NoOverlapEver | agent/src/worker-rollout-plan.ts:75-107 | under no_overlap, where what runs in the slots at the beginning is the deployment's own, no candidate starts while another version runs, and none of another version restarts while a candidate runs |
| WorkerRollout.VolumeWritersEver | agent/src/worker-runtime.ts:826-834 | with a volume a candidate starts only when nothing uses it, and a restart finds at most previous containers using it, none when there is just one |
| WorkerRolloutRuns.DeployWithRetries | agent/src/worker-runtime.ts:1079-1600 | over any number of attempts that end or die anywhere, until one commits, finds neither something live to replace nor a snapshot, or ends with a previous container started beside a snapshot: the contents are in the volume or the slot, ready for a retry, or set aside for good |
| WorkerRolloutRuns.FailedFirstCandidateLosesContents | agent/src/worker-runtime.ts:1371-1456 | on any host with an empty snapshot slot and nothing live but perhaps the candidate's own container, a run that loses the contents to any other write of a failed candidate |
| WorkerRolloutRuns.SnapshotOutlivesItsAttempt | agent/src/worker-runtime.ts:1339-1365 | from any volume served by one live container, a run whose snapshot fails late and that restarts the container beside the snapshot |
| WorkerRolloutRuns.RetryRestoresStaleContents | agent/src/worker-runtime.ts:1412-1456 | from any world so left, a retry that loses what was written since |
| WorkerRolloutRuns.CollidingSlotOverlaps | agent/src/worker-runtime.ts:1040-1059 | with a slot taken by another deployment's running container, a run under no_overlap that starts a candidate beside it |
| AppRollout.Traefik.PointAt | agent/src/index.ts:3516-3535 | on success the last route write points at the target and is confirmed; it fails only when something goes wrong, and may then be there unconfirmed |
| AppRollout.Traefik.ConfirmRoute | agent/src/index.ts:1115-1156 | only the last route write becomes confirmed, and only when the wait succeeds |
| AppRollout.EnsureCandidate | agent/src/docker-api.ts:1030-1062 | replaces whatever holds the name, and starts the candidate only while nothing uses the volume; on success it runs, with the service's volume and unless-stopped, and only something going wrong keeps it from that |
| AppRollout.ResolveExistingCandidate | agent/src/index.ts:3689-3736 | a candidate is adopted only when it was found running as this deployment's and as the only user of its volume; the previous container is the recorded one, and none only where the candidate's name was taken and the recorded one is that container or was seen to be gone; with the name free it is found as recorded; unless something goes wrong it refuses only a container that is another deployment's or beside which another one uses the volume |
| AppRollout.ReturnTrafficFromRejectedRelease | agent/src/index.ts:3573-3621 | true means that the previous container passed the check and has the confirmed route; false leaves at most one unconfirmed write to it, and unless something went wrong means that the check gave up on it |
| AppRollout.QuiesceAndSnapshot | agent/src/index.ts:3854-3867 | on success nothing uses the volume and a snapshot is in the slot; unless something goes wrong it fails only for a container that used the volume beside the previous one |
| AppRollout.UndoQuiesce | agent/src/index.ts:3868-3911 | restarts the previous container only while nothing uses the volume, and "preserved" means that it serves with a confirmed route; unless something goes wrong it is started where the volume is free, and preserved but for a consumer of the volume, a container that is gone, or one given up on |
| AppRollout.FailReadiness | agent/src/index.ts:3935-4017 | the candidate alone is removed, the volume and the previous container come back safely, the contents survive for a retry, and "preserved" is true of this run; unless something goes wrong the candidate and the snapshot are gone, and if nothing is preserved the previous container was given up on |
| AppRollout.CutOver | agent/src/index.ts:4021-4125 | traffic counts as returned only with a confirmed route to the previous container; success has a confirmed route to the candidate unless a rollback could be tried, which it cannot for an adopted one; verification, or a return, comes only after a confirmed write to the candidate; unless something goes wrong it fails exactly when the verification did and the previous container could serve |
| AppRollout.FailCutover | agent/src/index.ts:4126-4234 | the candidate alone is removed, the volume restored, and "preserved" means a completed rollback, a passed check and a confirmed route to the previous container; unless something goes wrong the rollback is completed, the candidate and the snapshot are gone, and if nothing is preserved the previous container was given up on |
| AppRollout.Retire | agent/src/index.ts:912-942 | starts nothing, removes the previous container only, in at most three attempts, and unless the retirement is reported as deferred that one is gone; it is deferred only when something goes wrong |
| AppRollout.GoLive | agent/src/index.ts:4021-4251 | cutover, its catch block and retirement: safe starts, contents that survive every exit but success, a true result, no removal but the previous container's on the way to live and the candidate's on any other, and without a mishap a cause for each end |
| AppRollout.Activate | agent/src/index.ts:3928-4251 | from the start of the candidate to the end: safe starts, contents that survive every exit but success, a true result, the candidate kept once it passed its check and went live, and without a mishap a cause for each end |
| AppRollout.PrepareRelease | agent/src/index.ts:3800-3853 | nothing starts, a halt that reports a live runtime saw it pass a check, and without a mishap the run halts exactly for a job that did not succeed |
| AppRollout.ReturnIfRejected | agent/src/index.ts:3771-3799 | only a rejected release with a previous container gets its traffic returned: confirmed, or at most one unconfirmed write |
| AppRollout.ReachActivation | agent/src/index.ts:3689-3853 | nothing starts before activation, the previous container is the recorded one unless it was seen to be gone or is the candidate, a halt that reports a live runtime saw it pass a check, one that returned the traffic has the confirmed route, any other leaves the route as the return left it, and without a mishap each halt has its cause |
| AppRollout.QuiesceAndActivate | agent/src/index.ts:3854-4251 | the quiesce with its catch block, then activation |
| AppRollout.DeployApp | agent/src/index.ts:3670-4251 | every exit of an app rollout: single writer; contents that survive unless live, ready for a retry unless the previous container runs beside a snapshot; flags true of what the run observed; live means a checked candidate, as it was to be created, the confirmed route unless a rollback could be tried, the recorded previous container gone or deferred, and no removal but the previous container's; a failed run removes at most the candidate; where a halt and a readiness failure leave the route; an adopted success leaves the slot alone. Unless something goes wrong each end has its cause (EndsCalmly): a refused container or a deferred job, a job that failed, another consumer of the volume, a check that gave up, a failed verification; otherwise the app goes live with the route confirmed, the previous container retired and the snapshot gone |
| AppRollout.LiveCandidateIsKept | agent/src/index.ts:4237-4248 | a live candidate that is not its own recorded predecessor is not removed by its run, and unless something goes wrong is still there |
| AppRollout.SingleWriterEver | agent/src/index.ts:3238-3254 | whatever an app rollout starts, nothing was using the volume |
| AppRolloutRuns.DeployAppWithRetries | agent/src/index.ts:3670-4251 | over any number of attempts that end or die anywhere, the contents are not lost before one goes live, and ready for a retry until one ends with the previous container started beside a snapshot |
| AppRolloutRuns.SnapshotOutlivesItsAttempt | agent/src/index.ts:3866-3911 | from any volume served by one container, a run whose snapshot fails late and that restarts the container beside the snapshot |
| AppRolloutRuns.RetryRestoresStaleContents | agent/src/index.ts:3935-3975 | from any world so left, a retry that loses what was written since |
| AppRolloutRuns.LiveWithoutTraffic | agent/src/index.ts:4037-4125 | for any app that may roll back, a run that goes live with the route on a retired container |
| AppRolloutRuns.PreservedWithoutConfirmedRoute | agent/src/index.ts:3771-3799 | for any app without a volume whose release was rejected before, a readiness failure that reports its previous container as preserved with an unconfirmed route |
| AppRolloutRuns.HaltedWithoutConfirmedRoute | agent/src/index.ts:3771-3842 | for any app with a rejected release and a pre-activation job, a halt that reports its previous container as preserved with an unconfirmed route |
| AppRolloutRuns.OwnPredecessorIsRetired | agent/src/index.ts:3689-3719 | for any app recorded as its own predecessor and gone, a run that routes to its candidate and removes it |
| WorkerJob.JobHost.RecoverMissingReceipt | agent/src/worker-runtime.ts:1755-1786 | a missing receipt is rebuilt only from this run's own container, with the status its state calls for, and the command is not started; undisturbed it fails exactly for a container that is in the way |
| WorkerJob.JobHost.StartWorkerJob | agent/src/worker-runtime.ts:1848-2017 | starts the command at most once, never without a receipt, leaves a terminal receipt alone, reports a final status only as the receipt has it and as the exit code says (0 is a success), "running" only for a command that was started and newly "succeeded" only for one that ran; undisturbed it fails exactly for a container that is in the way, and a first start leaves the command running |
| WorkerJob.JobHost.InspectWorkerJob | agent/src/worker-runtime.ts:2019-2056 | never starts the command, never changes a terminal status, reports like a start what it saw of the container (gone is missing), and a job newly reported as succeeded ran exactly when its container had been started; undisturbed it fails exactly without a receipt |
| WorkerJob.JobHost.StopWorkerJob | agent/src/worker-runtime.ts:2058-2092 | the same for stopping; a job newly reported as cancelled does not run; undisturbed it fails exactly without a receipt |
| WorkerJob.JobHost.CleanupWorkerJob | agent/src/worker-runtime.ts:2094-2137 | the receipt goes only after the container is gone; undisturbed it completes exactly when the container does not run and none is in the way |
| WorkerJob.Process | agent/src/worker-runtime.ts:1848-2137 | over any work items and agent deaths the command ran at most once since the last cleanup, and without a cleanup a terminal status stays |
| WorkerJob.NeverStartedSucceeds | agent/src/worker-runtime.ts:1814-1833 | an interrupted start and an inspection that end in a success without a run |
| VolumeWipe.WipeHost.HasReplacedVolume | agent/src/index.ts:5033-5038 | true exactly for a receipt of this volume and generation; an unreadable receipt fails the attempt; false means that no database was set up for this generation |
| VolumeWipe.WipeHost.WriteReceipt | agent/src/volume-wipe-receipt.ts:102-125 | the whole receipt or the one before, keeping every receipt truthful |
| VolumeWipe.WipeHost.ReplaceVolume | agent/src/index.ts:5085-5106 | on success the volume is this attempt's own and the receipt covers its generation |
| VolumeWipe.WipeHost.Provision | agent/src/index.ts:5108-5111 | sets up a database only on a replacement, and removes nothing |
| VolumeWipe.WipeHost.HandleWipeVolume | agent/src/index.ts:5019-5122 | an unreadable receipt destroys nothing, a receipt of this generation suppresses the removal, any other does not: success then means a volume this generation created; undisturbed, an attempt fails for an unreadable receipt only and otherwise does exactly that, and without a generation replaces whatever volume it finds |
| VolumeWipe.WearKeepsInvariant | agent/src/volume-wipe-receipt.ts:67-99 | volumes removed by hand and damaged receipts break nothing |
| VolumeWipe.RemovalExtends | agent/src/index.ts:5093 | a removal is allowed after the history exactly because no database was set up for its generation |
| VolumeWipe.Process | agent/src/index.ts:5019-5122 | with generations that never go back, over any attempts and deaths: once a database was set up for a generation no attempt of it removes the volume, and databases are set up on replacements only |
| VolumeWipe.WipeTwice | agent/src/index.ts:5019-5111 | without a generation the second attempt destroys what the first one set up |
| PgDumpHeader.ByteCursor.ReadArchiveInt | packages/runtime/src/external-backup-import.ts:172-179 | the loop reads a sign byte and a little-endian magnitude, or finds the bytes ended |
| PgDumpHeader.ByteCursor.ReadArchiveString | packages/runtime/src/external-backup-import.ts:182-203 | a length and that many bytes, none for a negative length, refused beyond the sample size |
| PgDumpHeader.LongStringRefused | packages/runtime/src/external-backup-import.ts:182-203 | a string of more than 8192 bytes is refused |
| PgDumpHeader.ByteCursor.ReadLayout | packages/runtime/src/external-backup-import.ts:219-266 | signature, version, integer width, format and compression, at the positions the version calls for |
| PgDumpHeader.ByteCursor.ReadDatabase | packages/runtime/src/external-backup-import.ts:268-275 | seven integers and the database name from version 1.4 on |
| PgDumpHeader.ParsePostgresCustomDumpHeader | packages/runtime/src/external-backup-import.ts:215-311 | the cursor program computes the header function that the lemmas below are about |
| PgDumpHeader.LayoutReads | packages/runtime/src/external-backup-import.ts:219-266 | every layout of a supported version, 1.0 to 1.16 and before, is read to its end: which versions have a revision, a width of offsets and which form of compression is written out in numbers |
| PgDumpHeader.LayoutRefused | packages/runtime/src/external-backup-import.ts:219-266 | a later version, another width of integers or another format is refused, in this order |
| PgDumpHeader.OtherSignatureRefused | packages/runtime/src/external-backup-import.ts:219-226 | other first bytes are no archive |
| PgDumpHeader.OldArchiveRefused | packages/runtime/src/external-backup-import.ts:278-285 | an archive from before 1.10 does not say which server it comes from |
| PgDumpHeader.HeaderReads | packages/runtime/src/external-backup-import.ts:215-311 | for every version 1.10 to 1.16, width 1 to 8 and fields in range, reading what a writer wrote gives exactly those fields, whatever follows |
| PgDumpHeader.HeaderStable | packages/runtime/src/external-backup-import.ts:215-311 | a verdict not caused by the bytes ending is unchanged by any bytes appended |
| PgDumpHeader.SampleDecides | packages/runtime/src/external-backup-import.ts:64-70 | an archive whose header fits 8 KiB is judged on that sample as on the whole file |
| PgDumpHeader.LittleEndianReads | packages/runtime/src/external-backup-import.ts:172-179 | magnitudes round-trip for every width |
| PgDumpHeader.MajorVersionIffMatch | packages/runtime/src/external-backup-import.ts:364-371 | a major version is read off exactly the texts that match the pattern, with the value of its digits |
| BackupAdmission.ParseRedisRdbHeader | packages/runtime/src/external-backup-import.ts:320-349 | the two loops compute the snapshot header function |
| BackupAdmission.RdbHeaderIff | packages/runtime/src/external-backup-import.ts:320-349 | the bytes name a version exactly when they start with what a writer of that version puts there |
| BackupAdmission.PostgresAdmittedIff | packages/runtime/src/external-backup-import.ts:443-513 | an archive sampled from a file is admitted exactly when it is the one registered, its server version can be read and the destination is a Postgres at least as new |
| BackupAdmission.RedisAdmittedIff | packages/runtime/src/external-backup-import.ts:443-535 | a snapshot is admitted exactly when it is the one registered and names a version the destination can load |
| BackupAdmission.RefusedBecause | packages/runtime/src/external-backup-import.ts:443-535 | the reason of a refusal: another artifact, another engine, what the header says, an older or unknown destination, in this order |
| BackupAdmission.RdbRefusedBecause | packages/runtime/src/external-backup-import.ts:320-349 | too few bytes or no digits cannot be read, another signature is another format |
| BackupAdmission.SameArtifactIs | packages/runtime/src/external-backup-import.ts:450-470 | what the registered artifact is: the same lower-case SHA-256 and the same positive size |
| BackupAdmission.LoadsIs | packages/runtime/src/external-backup-import.ts:391-401 | which Redis loads which snapshot version |
| BackupAdmission.LongerSampleAgrees | packages/runtime/src/external-backup-import.ts:443-535 | a longer sample gives the same verdict unless the shorter one ended inside a Postgres header |
| TarArchive.WriteTarOctal | agent/src/docker-api.ts:361-363 | writes the octal field in place and leaves the rest of the header as it is |
| TarArchive.WriteHeader | agent/src/docker-api.ts:376-388 | the header array ends up with every field in its place and the checksum of the header with its own field read as spaces |
| TarArchive.BuildTarArchive | agent/src/docker-api.ts:366-396 | an archive of all the files in order, or a failure exactly when some name is too long |
| TarArchive.NameIs | agent/src/docker-api.ts:370 | the name stored is the path without the slashes it begins with |
| TarArchive.FieldRead | agent/src/docker-api.ts:361-363 | octal fields round-trip below 8^(width-1) |
| TarArchive.SumBound | agent/src/docker-api.ts:386-388 | a checksum is at most 255 for each byte |
| TarArchive.ChecksumRead | agent/src/docker-api.ts:386-388 | the checksum of any header fits six octal digits and round-trips |
| TarArchive.HeaderRead | agent/src/docker-api.ts:376-388 | a reader finds name, mode, owners, size, time and a right checksum in the header |
| TarArchive.ArchiveRead | agent/src/docker-api.ts:366-396 | reading an archive of files in range gives the same names, modes, owners, time and contents in order |
| TarArchive.ArchiveIsWhole | agent/src/docker-api.ts:390-395 | the length is a multiple of 512 |
| DockerLogs.ReadFrames | agent/src/docker-api.ts:274-301 | the loop finds the frames if the whole buffer is framed and none otherwise |
| DockerLogs.ParseDockerLogBuffer | agent/src/docker-api.ts:274-308 | if any non-empty list of frames tiles the buffer, that list is the result; otherwise it is one stdout frame of everything |
| DockerLogs.FramesIffTiles | agent/src/docker-api.ts:281-297 | accepting frames is the same as tiling the buffer with them, so at most one list does |
| DockerLogs.EncodingTiles | agent/src/docker-api.ts:281-297 | frames with payloads below 2^32 bytes, written one after another, tile the buffer |
| LineSplitting.LinesOfMore | agent/src/build-logs.ts:200-207 | what was left over is continued by what is added |
| LineSplitting.WithoutReturnIs | agent/src/build-logs.ts:200-213 | one carriage return at the end of a line goes, and nothing else |
| LineSplitting.LineSplitter.Push | agent/src/build-logs.ts:200-207 | hands over the lines that end in the chunk and keeps what follows |
| LineSplitting.LineSplitter.Flush | agent/src/build-logs.ts:208-213 | a last fragment that is not empty counts as a line |
| LineSplitting.SplitChunks | agent/src/build-logs.ts:196-215 | however the text is cut into chunks, the lines are those of the whole text |
| BuildLogPublishing.BuildLogPublisher.Flush | agent/src/build-logs.ts:82-99 | the buffer becomes one more batch and the timer is off |
| BuildLogPublishing.TruncatedIs | agent/src/build-logs.ts:19-30 | a line within the limit is kept as it is, a longer one cut to it |
| BuildLogPublishing.BuildLogPublisher.Emit | agent/src/build-logs.ts:111-147 | an entry is accepted, cut or dropped as the capacity says, never after the close, and the buffer stays below a batch |
| BuildLogPublishing.BuildLogPublisher.SendBegins | agent/src/build-logs.ts:90-98 | the next batch in order, and only after the one before has settled |
| BuildLogPublishing.BuildLogPublisher.Close | agent/src/build-logs.ts:148-156 | nothing stays buffered |
| BuildLogPublishing.AcceptedWithOneMore | agent/src/build-logs.ts:121-147 | what one more message adds: itself, with a notice when it is the first too many, only exits afterwards |
| BuildLogPublishing.OrdinaryBounded | agent/src/build-logs.ts:126-147 | at most maxEntries entries that are neither exits nor the notice are accepted |
| BuildLogPublishing.Process | agent/src/build-logs.ts:56-158 | over any interleaving the batches sent are the flushed ones in order, and once close resolves they are exactly the accepted entries |
| HeartbeatLoop.CountsOfOneMore | agent/src/index.ts:2419-2451 | how a failure, a skip and a late outcome change the two counts |
| HeartbeatLoop.Loop.TimerFires | agent/src/index.ts:2453-2472 | never a second body: an outstanding one is skipped and counted, at the limit the exit fires, below it the timer is armed again |
| HeartbeatLoop.Loop.BodySettles | agent/src/index.ts:2477-2487 | a late success clears both counts, a late failure the skips only |
| HeartbeatLoop.Loop.TickContinues | agent/src/index.ts:2489-2510 | after the race the next tick is scheduled unless the loop ended |
| HeartbeatLoop.StuckBodyForcesExit | agent/src/index.ts:2462-2467 | a body that never settles makes the exit fire after exactly the remaining number of skips |
| HeartbeatLoop.Process | agent/src/index.ts:2395-2524 | over any order of events: at most one body, exactly one of timer and tick call until stopped, and one exit at most, only after enough failures since a success or skips of one stuck body |
| HeartbeatLoop.AfterStop | agent/src/index.ts:2516-2522 | over any events after stop the exit fires only if a tick call was under way that could still reach the limit |
| HeartbeatLoop.ExitAfterStop | agent/src/index.ts:2500-2506 | and then it can fire |
| HeartbeatLoop.StoppedLoopExits | agent/src/index.ts:2419-2428 | five steps from a new loop to an exit after stop |
| WorkReporting.UpdaterIffMayBeCompleted | agent/src/update-agent.ts:69-94 | where an accepted completion is the last one, the tracker says "start" exactly when some completion was accepted or ambiguous |
| WorkReporting.AcceptedThenRefused | agent/src/update-agent.ts:69-94 | the order for which it would be wrong |
| WorkReporting.WorkItemRun.SendOnce | agent/src/index.ts:6776-6797 | one request, and the tracker stays the fold over all sends |
| WorkReporting.WorkItemRun.SendWithRetry | agent/src/agent-work-reporting.ts:47-65 | one to four sends, another one only after a transient failure, with a back-off that doubles from one second |
| WorkReporting.WorkItemRun.DeliverReport | agent/src/agent-work-reporting.ts:74-95 | a result is rejected exactly when its only completion was answered 422, and the failure that takes its place is sent |
| WorkReporting.WorkItemRun.ExecuteAndReport | agent/src/agent-work-reporting.ts:66-101 | prepared once, what is prepared is sent, and the lease is held until after the last send |
| WorkReporting.ProcessWorkItem | agent/src/index.ts:7081-7090 | the updater starts exactly when one is pending and the work may be completed, so never after a rollback; at most eight sends |
| WorkScheduling.Agent.Trigger | agent/src/work-scheduler.ts:32-42 | polls exactly when there is free capacity and no other poll, and asks for that capacity |
| WorkScheduling.Agent.LeaseReplies | agent/src/work-scheduler.ts:43-79 | an oversized or failed reply starts nothing; otherwise each new id starts once and every repeated or active one is refused |
| WorkScheduling.Agent.DrainPolls | agent/src/update-agent.ts:102-121 | the updater starts when nothing is in flight, or when the time is up |
| WorkScheduling.Process | agent/src/index.ts:7234-7388 | over any order of events: work within the limit, no id twice at once, and an updater started before its deadline finds no work or poll and none begins |

## Left out

- Sockets, HTTP, files, processes and shell scripts are steps that may fail; image pulls and networks are requests
  without an effect that matters here.
- Credential shapes (regular expressions) and the sanitizing of structured values: only literal secrets are modelled.
  Stronger claims are false of a greedy pass: the tail of an overlapping second secret can stay, and the replacement
  text may itself contain a short secret.
- The order in which a trie node's children are visited is arbitrary here, insertion order in the source.
- StopAllGracefully: stops one container after another; the source stops them side by side. Each stop touches only its
  own container and what is stopped stays stopped, but the time bound is stated for one container only.
- StopWorkerContainerGracefully: bounds the time slept; the latency of Docker's replies comes on top, although the
  source's comment speaks of the whole call.
- DeployWithRetries: ends its claim where it turns false, at a previous container started beside a snapshot, or with
  nothing live to replace and no snapshot; see "What the proofs found". DeployAppWithRetries does the same.
- TakeSnapshot: does not model a snapshot container that outlives a report of its failure and finishes later.
- RestoreSnapshot: does not model a restore container that outlives a report of its failure and goes on unpacking.
- KeepSnapshot: does not model a move that outlives a report of its failure.
- Retire: an app's retirement is modelled without the drain delay and without telling a graceful stop from a forced
  one.
- SendBegins: that sends do not overlap is when the step can happen, standing in for the source's promise chain.
- VolumeWritersEver: with several previous containers a restart may find other previous ones already running, as the
  source's check allows.
- CheckReadiness: leaves open which observations pass (health, restarts, grace), except that the container was seen
  running.
- DeployApp: what release jobs do, the drain before retirement and the retained images are not modelled; one write and
  one wait stand for the polling of Traefik.
- The lemmas about single runs give the calls, the environment's choices and the replies; that the program makes those
  calls after those replies is read off the methods, as a method's contract does not name one run.
- recordedLiveRuntime is a given set of container names.
- HandleWipeVolume: other work that creates or replaces the same volume (restores, deletions) and attempts that run at
  the same time are not modelled.
- ParsePostgresCustomDumpHeader: integers are exact where the source's are doubles; both refuse the same lengths.
- Verify: the release string of a receipt (`readPostgresReleaseVersion`) is not modelled, nor are keys of the version
  table that JavaScript objects inherit.
- ParseDockerLogBuffer: decoding, splitting into log lines and timestamps are not modelled.
- ArchiveRead: for files whose numbers fit their fields and whose names hold no NUL; the writer itself is modelled for
  all values.
- ProcessWorkItem: what the work does is a choice of the environment; a lease that was never active reports nothing.
- Process: the agent's shutdown, which also stops polling, is not modelled.
- Release-phase recovery (`agent/src/release-jobs.ts`), the Alloy and Traefik configuration, metrics, probes, and
  restarting or removing a service: separate components or easy members.
