# touch-connect: the message ledger and its neighbours

A Dafny model of the lease-based claim protocol of tc-server, and of four
smaller algorithms that depend on it: the lineage query, the event stream of
the control API, the worker's lease keeper, and the skill file that a worker
writes and the loader reads back. `dafny verify dfyconfig.toml` checks it.

## The ledger

Workers claim a message under a lease, refresh the lease, submit checkpoints
and complete; a worker that falls silent loses the message to the next
claimer, who resumes from the last checkpoint, until the redeliveries are used
up and the message becomes a dead letter. Operators cancel, retry and replay;
a reconciler may run at any time.

- `Wrappers`, `Text`, `Refs`, `Domain`, `Routing`: string order, ref allocation, records, and which endpoint may take which message.
- `QueueModel`, `Calls`: what one store operation and one service call do, as functions on the ledger's value. `Calls.Step` covers seventeen calls.
- `MemoryStore`, `Service`: the store and the service as classes whose methods update maps in place, loop over them in any order, and are proved against those functions.
- `Protocol`, `Paths`: fifteen atomic moves with guards, and the proof that every call is a sequence of them. What every move keeps, every run keeps.
- `Links`, `Leases`, `Dependencies`, `Redelivery`, `Resume`, `Outcomes`: what the moves keep. `Polling`: reconciling and polling against direct claims.
- `Reachable`, `Runs`, `Overlap`, `Agreement`: the results lifted to calls and to whole runs, from an empty ledger, over any calls with any arguments, on a clock that never goes back.
- `Grants`, `Admission`, `Postings`, `Reports`, `Filings`, `Workers`, `Upkeep`: what each call stores, field by field in terms of its request, exactly when it is accepted, and over whole runs which call each stored record goes back to.
- `Finished`: what can move a completed or canceled message, exactly, in any run.
- `SqliteTables`, `SqliteRows`, `SqliteStore`: the tables with their key and index columns beside the bodies, the statements and transactions as functions on them, and the store as classes proved against those.
- `TaskSteps`, `SqlCalls`, `SqlRuns`: the service over the tables, statement by statement, and the proof that both stores run alike.

A call is one step at one instant `now`. Times are natural numbers and 0 is
the zero time, which the service reads as "no lease" and the store does not.

An attempt is *live* when it is open and not past its lease. Exclusivity means
that a live attempt is the one its message points at. It is stated for runs
with *patient* retries: an operator retries an input-required message only when
its attempt is no longer live. This is not an assumption for convenience.
`RetryTask` clears the message's attempt ref and leaves the attempt open, so
without it a live attempt is no longer its message's, and if the message is
claimed again before that lease passes two are live. Each result that assumes
patience has a failing run in `Impatient` and an exact form without the
assumption:

- exclusivity: `Runs.ExclusiveIffPatient`; two live attempts: `Overlap.TwoLiveIff`;
- finished states: `Finished.FinishedStaysIff`; canceled tasks: `Runs.CanceledStaysIff`;
- the table of joint states: `Agreement.StatesAgreeIff`.

Results that do assume it name `PatientRetries` in their hypotheses, for no more
of the run than they need; the others hold of every run.

Behaviour of the code that the model keeps as it is:

- A checkpoint may close an attempt as `canceled`; its message stays claimed until the lease passes (service.go:640-649).
- A retry does not reset the redelivery count, so attempt numbers can repeat after one (`Impatient.NumberRepeats`). `Runs.AttemptNumbersAreExact` says which numbers occur in any run and when none repeats, `Runs.GrantRepeatsIff` which claims repeat one.
- A polled claim that dead-letters a message commits and returns nothing; a direct one commits and returns an error.
- The refs of a claim are drawn before the store decides, so a refused claim uses up two numbers. Message refs may be given by the sender, which is why the first-in-first-out result speaks of allocated ones.
- Ref order stops being allocation order at the millionth ref of a kind (`Refs.OrderedUpToIff`); `Refs.AllocRefOrder` has the order of any two.
- The two stores differ on requests that the service never makes: where memory overwrites an attempt or dead letter whose ref is taken, SQLite's key refuses the row and the transaction rolls back. `SqliteRows.ClaimsAgreeIff` and `SqliteRows.PollsAgreeIff` say exactly when, and `SqliteRows.StoresDiffer` has a case.

## The neighbours

- `Sorting`, `Lineage`, `Provenance`: the lineage closure with its map that grows while it is iterated, and what it is over the ledger of any run.
- `EventStream`, `EventContent`: the snapshot diff as a class, against a client that replays the events.
- `LeaseKeeper`: the refresh interval, the loop, and a keeper among all the other calls of a run of the server.
- `SkillMarkdown`: printer, scanner, front matter parser and validator.

## Model

| member | source | states |
|---|---|---|
| Runs.NeverTwoLiveAttempts | tc-server/internal/infrastructure/memory/store.go:143-181 | In every run whose retries are patient, two attempts of one message that are both open and inside their leases are the same attempt. |
| Runs.LeasesAreExclusive | tc-server/internal/application/service.go:418-524 | In such a run, at every point, a live attempt is the one its message points at, and that message is claimed, processing or waiting for input. |
| Runs.GrantEndsEarlierAttempts | tc-server/internal/infrastructure/memory/store.go:190-220 | If the retries up to a granted claim were patient, every other attempt of that message is closed or past its lease, then and at every later point of the run. |
| Runs.DeadForEver | tc-server/internal/application/service.go:504-524 | Without any assumption on retries: once an attempt is closed or expired it never becomes live again and never gets another checkpoint. |
| Reachable.RetryKeepsExclusivityIff | tc-server/internal/application/control_commands.go:54-79 | A retry keeps exclusivity if and only if no input-required message of the task still has a live attempt. |
| Runs.ExclusiveIffPatient | tc-server/internal/application/control_commands.go:54-79 | Over whole runs: at every point each live attempt is the one its message points at, if and only if every accepted retry of the run was patient. |
| Reachable.CallKeepsLive | tc-server/internal/application/service.go:631-651 | Each of the seventeen calls keeps exclusivity, unless it is an accepted retry that reopens an input-required message whose attempt is still live; that one breaks it. |
| Leases.ReopenKeepsLive | tc-server/internal/application/control_commands.go:64-71 | The move behind a retry keeps exclusivity if and only if none of the reopened messages points at a live attempt. |
| Leases.MoveKeepsLive | tc-server/internal/infrastructure/memory/store.go:143-240 | Each of the fifteen protocol moves keeps exclusivity, reopening under that condition. |
| Leases.DeadStaysDead | tc-server/internal/application/service.go:426-436 | No move makes a closed or expired attempt live. |
| Overlap.TwoLiveIff | tc-server/internal/infrastructure/memory/store.go:190-206 | In any run, two attempts of a message are live at some point if and only if some claim of it is granted while an attempt of it is live. |
| Impatient.TwoLiveAttempts | tc-server/internal/application/control_commands.go:64-71 | A concrete run of six calls at one instant, with an impatient retry, that ends with two live attempts of one message: the condition is needed. |
| Grants.GrantIsTheClaimers | tc-server/internal/infrastructure/memory/store.go:190-220 | Through either claim path a granted reply's attempt is the stored one, under a ref that was free, of the message claimed, in the name of the endpoint that called, claimed, with the lease running from now for its full length, numbered one past the redelivery count; the message points at it and goes on with what it said, one redelivery later exactly on a takeover. |
| Grants.StoreGrant | tc-server/internal/infrastructure/memory/store.go:143-220 | The store's own grant under a ref that is free, record by record: besides the message and its new attempt, only the attempt that a takeover takes over from changes, and it is orphaned. |
| Grants.GrantedMayRefresh | tc-server/internal/application/service.go:504-524 | From the ledger that a granted claim leaves, at any instant up to the end of the lease, a refresh by the claimer is accepted and one by any other endpoint is refused as stale. |
| Grants.LateRefreshIsRefused | tc-server/internal/application/service.go:504-524 | Past the lease the claimer's own refresh is refused as expired, and after a sweep as stale. |
| Grants.AttemptsAreTheClaimers | tc-server/internal/application/service.go:252-317 | In every run each stored attempt was granted by a claim of the endpoint in whose name it is, for the message that it is of. |
| Admission.GrantedIff | tc-server/internal/application/service.go:252-284 | A direct claim is granted if and only if the endpoint is online and heard of within the timeout, the message is for it or for any and not kept for a preferred endpoint that is up and able, the endpoint has a capability that covers the wanted one, every dependency is stored and completed, and the message is free, or lost by its worker with redeliveries left. |
| Upkeep.PollTakesFirst | tc-server/internal/infrastructure/memory/claim_next.go:9-75 | After its sweep a poll by an endpoint that is up grants or buries the first message by ref, lost ones before new ones, of those that are for the endpoint and wait on nothing, or finds that there is none; it is refused exactly to an endpoint that is not up or has no capability. |
| Upkeep.RefusedClaimBuries | tc-server/internal/infrastructure/memory/store.go:143-240 | A direct claim that is not granted buries its message and orphans the attempt, exactly when it is let through to a message lost with no redelivery left; otherwise it changes nothing but counters. |
| Admission.DeadLettersTell | tc-server/internal/infrastructure/memory/store.go:222-240 | In every run each dead letter was written by a claim that met its message lost, with the limit reached, and names that message, its last attempt and that attempt's last checkpoint at that moment. |
| Postings.IngressStores | tc-server/internal/application/service.go:198-250 | An accepted posting stores one message, under the ref it answers, available and new, with the sender, capability, target, preference, dependencies, payload, task and readback flag of the request, and changes no other record; a refused one stores none. |
| Postings.PostedIff | tc-server/internal/application/service.go:198-250 | A posting is accepted if and only if it is valid, some endpoint (the named one, if one is named) can take it, the quality gate accepts it and its ref is free. |
| Postings.CompletionPosts | tc-server/internal/application/service.go:526-603 | Each follow-up of a completion is sent by the completing endpoint, in the parent's task, and depends on what its request names or else on the parent; a finished completion answers with the ref of each one in order. |
| Postings.ReplayStores | tc-server/internal/application/control_commands.go:81-114 | A replay stores one new message that asks for what the buried one asked for, dependencies included. |
| Postings.MessagesAreAsked | tc-server/internal/application/service.go:198-250 | In every run each message still says, word for word, what the call that brought it asked for: an ingress, a completion's follow-up or a replay. |
| Postings.RequestedDependenciesFirst | tc-server/internal/application/service.go:264-266 | In every run, each dependency that an accepted posting's request named was claimed before any attempt of the message it posted. |
| Postings.FollowUpsWait | tc-server/internal/application/service.go:569-603 | In every run, a follow-up of a finished completion is claimed only after its parent, or after the messages that its request names instead. |
| Reports.CheckpointRecords | tc-server/internal/application/service.go:418-467 | A checkpoint is accepted if and only if it is filled in, its attempt is the endpoint's own, open and inside its lease, and its artifacts belong to the message; it then adds one checkpoint with the request's endpoint, state, summary and artifacts, moves the attempt to that state and the message where the state leads, and changes nothing else. |
| Reports.CallExtends | tc-server/internal/application/service.go:418-467 | An attempt's checkpoints grow by exactly what an accepted checkpoint or completion says of it, and by no other call. |
| Reports.CheckpointsKeepSayings | tc-server/internal/infrastructure/memory/store.go:259-266 | In every run an attempt's checkpoints are, in order and word for word, the reports on it that were accepted. |
| Reports.TakeoverHandsOverSayings | tc-server/internal/infrastructure/memory/store.go:208-220 | In every run a takeover hands over the summary and the artifacts of the last accepted report on the previous attempt, as its request gave them, or nothing when there was none. |
| Reports.OnlyClaimerReports | tc-server/internal/application/service.go:426-436 | In every run an accepted report on an attempt is by the endpoint whose claim was granted it. |
| Reports.StatesAreSaid | tc-server/internal/application/service.go:442-452 | In every run an attempt is in the state last reported of it, claimed before any report, unless it was orphaned or canceled. |
| Filings.RegistrationFiles | tc-server/internal/application/artifact_service.go:8-60 | A registration is accepted if and only if it is filled in, by an attempt that may act, under a new ref and based on registered versions; it files one version with the request's parents and endpoint, the attempt's own message and ref and the time, and changes nothing else. |
| Filings.ParentsAreNamed | tc-server/internal/application/artifact_service.go:23-51 | In every run the parents of a version are exactly those that the one accepted registration of it named. |
| Filings.LinksAreNamed | tc-server/internal/application/artifact_service.go:23-51 | In every run two versions are linked in a lineage if and only if an accepted registration of one named the other. |
| Filings.DecisionFiles | tc-server/internal/application/side_effect_service.go:10-53 | A decision is accepted if and only if it is filled in, about a stored attempt, under a new ref, and pending or decided by someone other than its requester; it is filed with exactly the request's status, hash, requester, decider and expiry, and nothing else changes. |
| Filings.StartFiles | tc-server/internal/application/side_effect_service.go:55-103 | A side effect starts if and only if its attempt may act and a decision on file for that attempt says approved, for the same hash, and has not expired; then an execution with the same key and scope is answered, or one is filed under the next ref, executing, with the fields of the request. |
| Filings.RefusalNamesTheReason | tc-server/internal/application/side_effect_service.go:133-151 | When everything else is in order, the error says which of the tests of the decision failed first: missing, for another attempt, not approved, expired, or another hash. |
| Filings.OutcomeFiles | tc-server/internal/application/side_effect_service.go:105-131 | An execution is closed if and only if its own endpoint reports an outcome while it is executing and its attempt may act; only its status and result change, to those reported. |
| Filings.EffectsRestOnApprovals | tc-server/internal/application/side_effect_service.go:55-151 | In every run each execution is what an accepted request described, after an accepted approval whose own request said approved, for that attempt and hash, by someone other than the requester, and had not expired by then; and it is by the endpoint that was granted the attempt. |
| Filings.OutcomesAreReported | tc-server/internal/application/side_effect_service.go:105-131 | In every run a finished execution carries the status and result that its own endpoint reported for it. |
| Workers.RegistrationEnrolls | tc-server/internal/application/service.go:116-145 | A registration is refused exactly to an endpoint that is up or badly described; otherwise the endpoint is known by the request's actor, state and capability names, and was heard of now. |
| Workers.StateIsLastBeat | tc-server/internal/application/service.go:147-182 | In every run an endpoint is in the state that its last accepted registration or heartbeat gave it, and was last heard of then. |
| Workers.CapabilitiesAreLastNamed | tc-server/internal/application/service.go:184-196 | In every run an endpoint has exactly the capabilities that its last accepted registration or advertisement named. |
| Workers.GrantsGoToFitWorkers | tc-server/internal/application/service.go:252-317 | In every run work is granted only to an endpoint whose last sign of life said online and came within the timeout, and whose last list of capabilities has one that covers the message's. |
| Upkeep.LeasesRunFromLast | tc-server/internal/application/service.go:504-524 | In every run an attempt's lease ends its full length after the grant or the last accepted refresh of that attempt, whichever came last. |
| Upkeep.CancellationCancels | tc-server/internal/application/control_commands.go:8-52 | A cancellation is accepted if and only if the task has a message; exactly its unfinished messages and the open attempts they point at become canceled, the reply lists and counts just these, and no other record changes. |
| Upkeep.RetryFrees | tc-server/internal/application/control_commands.go:54-79 | A retry makes exactly the failed, dead-lettered, input-required and canceled messages of the task available and points them at no attempt; it lists and counts just these, and no other record changes. |
| Upkeep.SweepOffers | tc-server/internal/infrastructure/memory/store.go:357-376 | A sweep makes exactly the held messages past their lease takeover candidates and orphans exactly the attempts they point at, counts the messages, and changes no other record. |
| Paths.CallRoute | tc-server/internal/application/service.go:252-317 | Every service call is a sequence of enabled protocol moves, of which at most the last claims or reopens a message, and the reply announces exactly that one; only a checkpoint or a completion contains a report. |
| Reachable.CallKeepsGood | tc-server/internal/application/service.go:418-467 | Every call, with any arguments and at any time, keeps all the invariants that need no assumption: links, ref accounting, dependency order, redelivery budget, resume data, artifact history, side effects. |
| Links.MoveKeepsLinked | tc-server/internal/infrastructure/memory/store.go:143-181 | Every move keeps the links between records: a message's current attempt is stored and is its own, available messages have none, takeover candidates have an orphaned one. |
| Links.MoveKeepsCounted | tc-server/internal/infrastructure/memory/store.go:378-387 | Every stored attempt, dead letter, checkpoint and side effect carries a ref that the allocator has handed out, so a ref just drawn is free. |
| Polling.ReconcileIsInvisible | tc-server/internal/infrastructure/memory/store.go:357-376 | For any ledger whose links hold, any message, endpoint and instant: claiming and then reconciling gives the same reply and the same ledger as reconciling and then claiming, refusals included. |
| Polling.ClaimCommutes | tc-server/internal/infrastructure/memory/store.go:143-181 | The same for the store's own claim: first claim, takeover from an expired lease, takeover candidate, dead-lettering and refusal all commute with a sweep. |
| Polling.ReconcileIdempotent | tc-server/internal/infrastructure/memory/store.go:357-376 | A sweep leaves no held message whose attempt's lease is past, and a second sweep at the same instant changes nothing and counts zero. |
| MemoryStore.Store.ReconcileExpiredClaims | tc-server/internal/infrastructure/memory/store.go:357-376 | The loop, in whatever order it meets the map's entries, ends in the one state where exactly the held messages with an expired current lease are takeover candidates and their attempts orphaned, and returns how many there were. |
| Polling.PollIsDirectClaim | tc-server/internal/infrastructure/memory/claim_next.go:9-43 | A poll is a reconcile followed by the direct claim of the least claimable message (takeover candidates before available ones, then by ref), with the same reply and ledger, or does nothing more when there is none. |
| Polling.EligibleIsClaimable | tc-server/internal/application/service.go:381-416 | The poll's routing, preference and dependency tests accept a message exactly when a direct claim by the same endpoint at the same instant is not refused. |
| Polling.EmptyPoll | tc-server/internal/infrastructure/memory/claim_next.go:45-75 | A poll that returns nothing found nothing claimable and changed nothing beyond its sweep, or moved exactly one spent takeover candidate to the dead letters. |
| Polling.PollIsFirstInFirstOut | tc-server/internal/infrastructure/memory/claim_next.go:23-43 | The message a poll answers with is, among those with allocated refs that could be claimed in the same state, the first in ref order, stated on the numbers for any counters; up to 999999 it is the one allocated first. |
| MemoryStore.Store.ClaimNextMessage | tc-server/internal/infrastructure/memory/claim_next.go:9-21 | The two-pass sorted search over the store's maps does what the specification of a poll says to the contents and reply. |
| Runs.GrantNeedsCompletedDependencies | tc-server/internal/application/service.go:264-266 | Through either claim path a message is granted only when each of its dependencies is stored and completed at that moment. |
| Runs.DependenciesClaimedFirst | tc-server/internal/domain/routing.go:39-50 | In every run, each dependency of a message that has an attempt got an attempt of its own strictly earlier in claim order. |
| Runs.CyclesAreNeverClaimed | tc-server/internal/application/service.go:405-416 | In every run, no message of a set whose members wait on each other, a cycle for one, ever has an attempt. |
| Routing.MessageDependenciesCompleted | tc-server/internal/domain/routing.go:39-50 | The search loop answers whether every named dependency is stored and completed. |
| Routing.CapabilityMatches | tc-server/internal/domain/routing.go:52-71 | The search loop answers whether a capability of the endpoint is the wanted one or a wildcard that covers it. |
| Runs.RedeliveryIsBounded | tc-server/internal/infrastructure/memory/store.go:190-240 | In every run a message's redelivery count is the number of its takeovers and never exceeds the limit, its attempts number its granted claims and at most one plus the limit plus its retries, and every dead letter records exactly the limit. |
| Runs.AttemptNumbersAreExact | tc-server/internal/infrastructure/memory/store.go:190-220 | In every run, retried or not, the attempts of a message that has any carry all the numbers from 1 to its redelivery count plus one, and no number twice if and only if its claims are its takeovers plus one. |
| Runs.GrantRepeatsIff | tc-server/internal/infrastructure/memory/store.go:190-206 | A granted claim, through either path, repeats a number if and only if before the call the message was available and had an attempt already. |
| Runs.NumbersWithoutRetries | tc-server/internal/application/control_commands.go:54-79 | A message that was never retried has no number twice. |
| Redelivery.ClaimRepeatsIff | tc-server/internal/infrastructure/memory/store.go:190-206 | The same for one move: a first claim or takeover repeats a number if and only if the message is available and has an attempt already. |
| Redelivery.MoveKeepsNumbers | tc-server/internal/infrastructure/memory/store.go:208-220 | Every move, reopening included, keeps a message's numbers without a gap up to its redelivery count plus one. |
| Impatient.NumberRepeats | tc-server/internal/application/control_commands.go:64-71 | A concrete run with a retry in which two attempts of one message carry the same number. |
| Redelivery.VacancyIsSpent | tc-server/internal/infrastructure/memory/store.go:190-220 | Every claim either uses up the message's opening, which only posting or a retry provides, or is a takeover. |
| Runs.CompletedForEver | tc-server/internal/application/service.go:635-651 | If the retries up to its completion were patient, a message stays completed, whatever is called. |
| Finished.FinishedMovesIff | tc-server/internal/application/service.go:635-651 | Without that assumption: a call changes the state of a completed or canceled message if and only if it is a report, by an attempt of that message that may still report, of one of the states listed, or a retry of a canceled message's task. |
| Finished.FinishedStaysIff | tc-server/internal/application/service.go:635-651 | Over any run: a message completed or canceled at some point stays so to the end if and only if no later call is one of those. |
| Impatient.CompletionUndone | tc-server/internal/application/control_commands.go:64-71 | A concrete run with an impatient retry in which a completed message is processing again. |
| Impatient.CancellationUndone | tc-server/internal/application/control_commands.go:8-52 | A concrete run with an impatient retry in which a canceled task keeps a live attempt, whose report moves its message with no retry in between. |
| Runs.CanceledUntilRetried | tc-server/internal/application/control_commands.go:8-79 | If the retries before a cancellation were patient, every message the task had stays completed or canceled with no live attempt until that task is retried. |
| Runs.CanceledStaysIff | tc-server/internal/application/control_commands.go:8-79 | Without that assumption: a message of the task is completed or canceled with no live attempt at every point from the cancellation on, until a retry, if and only if just before it each live attempt of the message, if any, was the one it pointed at, with the message neither completed nor canceled. |
| Outcomes.CancelSettlesIff | tc-server/internal/application/control_commands.go:39-52 | One cancellation: a message of the task ends finished with no live attempt if and only if each of its live attempts is the one it points at and the cancellation reaches the message. |
| Reachable.CallKeepsSettled | tc-server/internal/application/control_commands.go:8-52 | Any single call leaves a settled message's state alone, unless it retries the message's own task, and even then when it is completed. |
| Agreement.StatesAgree | tc-server/internal/application/service.go:635-651 | In a run with patient retries every message and the attempt it points at are in one of the pairs of states of a fixed table: completed with completed, failed with failed, a takeover candidate or dead letter with an orphaned attempt, and so on; a message that points at none is available or canceled. |
| Agreement.StatesAgreeIff | tc-server/internal/application/service.go:635-651 | In any run: the pairs stay in the table at every point if and only if no call is an accepted checkpoint or completion by an attempt that its message does not point at, of a state that does not fit the attempt it does point at. |
| Agreement.CallKeepsAgreementIff | tc-server/internal/application/service.go:418-467 | From states in the table, a call leaves it if and only if it is such a report; no other call of the seventeen ever does. |
| Agreement.MoveKeepsAgreement | tc-server/internal/application/control_commands.go:23-51 | Every move but a report keeps to that table, with no assumption on retries. |
| Agreement.ReportKeepsAgreementIff | tc-server/internal/application/service.go:442-452 | Without that: a report keeps to the table if and only if it is by the attempt the message points at, or the state it gives the message fits that attempt's. |
| Impatient.StatesDisagree | tc-server/internal/application/control_commands.go:64-71 | A concrete run with an impatient retry that leaves the table: a completed message points at a claimed attempt. |
| Runs.RevisionsAreGapless | tc-server/internal/infrastructure/memory/store.go:259-266 | In every run an attempt's checkpoints are numbered 1 to n in order, its revision is n or 1 when there is none, and the scan for the highest revision finds the one appended last. |
| Runs.HandoverIsFinal | tc-server/internal/infrastructure/memory/store.go:208-220 | What a takeover hands over is, at every later point of the run, still the last checkpoint of the previous attempt, and all its artifacts belong to the message. |
| Runs.TakeoverHandsOver | tc-server/internal/infrastructure/memory/store.go:208-220 | Through either claim path a takeover is from an attempt that is not live, and its reply carries that attempt's last checkpoint, or blanks when it has none. |
| Resume.LatestIsLast | tc-server/internal/infrastructure/memory/store.go:457-468 | With gapless revisions the scan that keeps the first maximum returns the last element. |
| Runs.NoArtifactCycle | tc-server/internal/application/artifact_service.go:23-51 | In every run no sequence of versions is a based-on cycle. |
| Runs.ParentsExist | tc-server/internal/application/artifact_service.go:35-42 | In every run every version that another is based on is registered. |
| Runs.SideEffectsAreApproved | tc-server/internal/application/side_effect_service.go:55-151 | In every run no two executions share key and scope; each keeps its identity from any earlier point on, leaves `executing` at most once, and rests on one unchanged approved decision for its attempt and hash, decided by someone other than its requester. |
| Outcomes.EffectsAreFinal | tc-server/internal/application/side_effect_service.go:105-131 | A move changes at most the status and result of an execution, and only out of `executing`. |
| MemoryStore.Store.SaveSideEffectExecution | tc-server/internal/infrastructure/memory/store.go:325-338 | The search loop returns an execution with the same key and scope if there is one, whichever the iteration finds, and otherwise files the new one unless its ref is taken. |
| Refs.AllocRefInjective | tc-server/internal/infrastructure/memory/store.go:384-430 | Two allocated refs are equal only for the same kind and the same counter. |
| Refs.AllocRefOrder | tc-server/internal/infrastructure/memory/store.go:384-387 | String order on the refs of one kind, exactly, for any two counters: the shorter number is compared with as many leading digits of the longer. |
| Refs.OrderedUpToIff | tc-server/internal/infrastructure/memory/store.go:384-387 | String order is allocation order on all counters up to a bound if and only if the bound is at most 999999. |
| Text.Sort | tc-server/internal/infrastructure/memory/claim_next.go:23-30 | The keys of a map come out strictly increasing, each exactly once. |
| MemoryStore.Store.ClaimMessage | tc-server/internal/infrastructure/memory/store.go:143-181 | The store's maps change as the specification of a claim says, case by case on the message's state, lease and redeliveries, with its reply. |
| MemoryStore.Store.SaveCheckpoint | tc-server/internal/infrastructure/memory/store.go:259-266 | The stored checkpoint gets the count so far plus one as its revision and goes to the end of its attempt's list. |
| MemoryStore.Store.SaveArtifactVersion | tc-server/internal/infrastructure/memory/store.go:277-285 | A version ref that is taken is refused and nothing changes; otherwise the version is filed and nothing else changes. |
| MemoryStore.Store.SaveApprovalDecision | tc-server/internal/infrastructure/memory/store.go:308-316 | A decision ref that is taken is refused and nothing changes; otherwise the decision is filed and nothing else changes. |
| Service.Service.ClaimMessage | tc-server/internal/application/service.go:252-284 | The call's reply and the whole ledger after it, error paths included, are those of the specification that the run results are about. |
| Service.Service.ClaimNextMessage | tc-server/internal/application/service.go:286-317 | Likewise for a poll: endpoint checks, sweep, snapshot of online endpoints, store search. |
| Service.Service.SubmitCheckpoint | tc-server/internal/application/service.go:418-467 | Likewise: validation, liveness, artifact ownership, numbering, attempt and message update. |
| Service.Service.RefreshLease | tc-server/internal/application/service.go:504-524 | Likewise: only the attempt's own endpoint, only while it is open and not past its lease, and the new lease counts from now. |
| Service.Service.CompleteAttempt | tc-server/internal/application/service.go:526-603 | Likewise: the completion is a checkpoint, then follow-ups are posted in order and the first refusal stops the rest without undoing anything. |
| Service.Service.IngressMessage | tc-server/internal/application/service.go:198-250 | Likewise: validation, routing, the refs drawn, and that a message the quality gate rejects is not stored. |
| Service.Service.CancelTask | tc-server/internal/application/control_commands.go:8-52 | Likewise: the loop over the task's messages cancels exactly the unfinished ones and their open attempts and counts both. |
| Service.Service.RetryTask | tc-server/internal/application/control_commands.go:54-79 | Likewise: the loop reopens exactly the failed, dead-lettered, input-required and canceled messages, clears their attempt and keeps their redelivery count. |
| Service.Service.ReplayDeadLetter | tc-server/internal/application/control_commands.go:81-135 | Likewise: a copy of the buried message is posted under a new ref. |
| Service.Service.RegisterArtifactVersion | tc-server/internal/application/artifact_service.go:8-60 | Likewise: a live attempt, a stored message, known parents and a fresh version ref are needed. |
| Service.Service.RecordApprovalDecision | tc-server/internal/application/side_effect_service.go:10-53 | Likewise: a decided approval needs a decider other than the requester, and a fresh ref. |
| Service.Service.StartSideEffect | tc-server/internal/application/side_effect_service.go:55-103 | Likewise: the approval must exist, be for this attempt, be approved, not past its expiry, and carry the same hash; a repeated key and scope is answered with the execution on file. |
| Service.Service.CompleteSideEffect | tc-server/internal/application/side_effect_service.go:105-131 | Likewise: only the executing endpoint, only once, only while its attempt is live. |
| SqlRuns.BackendsAgree | tc-server/internal/infrastructure/sqlite/claim.go:10-160 | Over any run of service calls from an empty database, each run statement by statement on the tables, every column keeps agreeing with its body, the tables stand for the ledger that memory has, and all replies are the same. |
| SqlRuns.StoresAgree | tc-server/internal/infrastructure/sqlite/claim_next.go:10-110 | From any database that stands for a ledger with the invariants, each of the seventeen calls, as statements on the tables, leaves it standing for what the call over memory makes of the ledger, with the same reply. |
| SqlRuns.CompletionMirrored | tc-server/internal/application/service.go:526-567 | A completion over tables: three rows for the checkpoint, both records rewritten as completed, then the follow-ups; together the one step of the ledger. |
| SqlRuns.CancelMirrored | tc-server/internal/application/control_commands.go:8-52 | The cancel loop over rows in ref order, updating a message's row and then its open attempt's, does what cancellation does to the ledger and counts the same. |
| SqlRuns.EffectInserted | tc-server/internal/infrastructure/sqlite/side_effects.go:9-39 | Selecting by key and scope and otherwise inserting answers as the search through the map does, given that key and scope are unique. |
| SqliteRows.ClaimsAgreeIff | tc-server/internal/infrastructure/sqlite/claim.go:40-160 | For any tables and request: the claim's statements, run and rolled back as the code does, agree with the claim in memory if and only if the claim does not need a taken ref. It needs one when the message is available, or due for takeover with redeliveries left, and the attempt ref is stored, or when it is due with none left and the dead letter ref is stored; then the tables stay as they are. |
| SqliteRows.PollsAgreeIff | tc-server/internal/infrastructure/sqlite/claim_next.go:10-56 | The two polls agree if and only if nothing is eligible, or the picked message is available or its attempt is stored, and its claim does not need a taken ref; on an error the tables stay as they are. |
| SqliteRows.StoresDiffer | tc-server/internal/infrastructure/sqlite/attempts.go:43-56 | A concrete database and request on which memory grants the claim and overwrites another message's attempt, and SQLite refuses it and changes nothing. |
| SqliteRows.ScanIsNext | tc-server/internal/infrastructure/sqlite/claim_next.go:10-74 | The first passing row in the order of state rank and ref is the message that memory's two passes find. |
| SqliteRows.LastCheckpointIsLatest | tc-server/internal/infrastructure/sqlite/checkpoints.go:33-47 | The row of highest revision is the checkpoint that memory's scan returns. |
| SqliteRows.CheckpointWrite | tc-server/internal/infrastructure/sqlite/checkpoints.go:9-31 | Count plus one and insert: the decoded history grows by that checkpoint, or, when the ref is stored for any attempt, nothing changes. |
| SqliteRows.ReconcileDecoded | tc-server/internal/infrastructure/sqlite/reconcile.go:9-45 | The rows after reconciliation stand for the ledger after memory's sweep. |
| SqliteStore.Store.ClaimMessage | tc-server/internal/infrastructure/sqlite/claim.go:10-38 | The transaction, committed or rolled back, leaves the tables and reply of the specification by statements. |
| SqliteStore.Store.ClaimNextMessage | tc-server/internal/infrastructure/sqlite/claim_next.go:10-56 | Likewise for the poll: ordered scan, refs drawn in the transaction, claim, commit or rollback. |
| SqliteStore.Tx.NextEligibleMessage | tc-server/internal/infrastructure/sqlite/claim_next.go:58-74 | The loop over the ordered messages stops at the first that waits for a worker and passes the routing and dependency tests, or finds none. |
| SqliteStore.Tx.ClaimIn | tc-server/internal/infrastructure/sqlite/claim.go:40-91 | The statements inside an open transaction, case by case on the message's state. |
| SqliteStore.Store.ReconcileExpiredClaims | tc-server/internal/infrastructure/sqlite/reconcile.go:9-45 | The loop over the selected rows, in any order, leaves exactly the expired messages' rows offered for takeover and their attempts' rows orphaned, and counts them. |
| SqliteStore.Store.SaveCheckpoint | tc-server/internal/infrastructure/sqlite/checkpoints.go:9-31 | The transaction leaves the tables and reply of the checkpoint insertion, and the tables as they were when the ref is taken. |
| SqliteStore.Tx.LatestCheckpoint | tc-server/internal/infrastructure/sqlite/checkpoints.go:33-47 | The scan for the highest revision returns the body of that row, or nothing when the attempt has none. |
| SqliteStore.Tx.UpdateMessage | tc-server/internal/infrastructure/sqlite/messages.go:39-59 | The body and the state and attempt columns are rewritten together; no affected row means the message is unknown and nothing changes. |
| SqliteStore.Tx.UpdateAttempt | tc-server/internal/infrastructure/sqlite/attempts.go:58-66 | The same for an attempt's row. |
| SqliteStore.Tx.NextRef | tc-server/internal/infrastructure/sqlite/refs.go:26-38 | The sequence row advances by one and the ref is the memory allocator's. |
| SqliteTables.DecodedInjective | tc-server/internal/infrastructure/sqlite/store.go:38-107 | Two databases whose columns agree with their bodies and whose revisions are gapless stand for the same queue only if they are equal: the columns carry nothing of their own. |
| SqliteTables.CheckpointWritten | tc-server/internal/infrastructure/sqlite/checkpoints.go:9-31 | Appending a row under the next revision keeps the table gapless and appends to the decoded history. |
| Lineage.ExpandClosure | internal/communication/governance/governance.go:110-116 | The loop ends, and whatever order the growing map is visited in, the included set is exactly the versions that a chain of links leads to from the seed. |
| Lineage.IncludeParents | internal/communication/governance/governance.go:118-133 | One pass over the map while it grows: an entry added on the way may be visited or not; if nothing changed the set is closed under known parents. |
| Lineage.IncludeChildren | internal/communication/governance/governance.go:135-145 | One pass over the records; if nothing changed the set is closed under children. |
| Lineage.BuildArtifactLineage | internal/communication/governance/governance.go:50-93 | A blank query or one that names no version has no answer; otherwise the answer is built on exactly the closure of the versions it names, the greatest version in order being current. |
| Lineage.ClosureIsLeast | internal/communication/governance/governance.go:110-116 | The closure is the least set that holds the seed and is closed under links. |
| Lineage.SameComponent | internal/communication/governance/governance.go:110-145 | When version refs are not blank and not repeated, any non-empty set of versions of one component has the whole component as its closure. |
| Lineage.ClosureIsUnion | internal/communication/governance/governance.go:110-145 | The closure of a seed is the union of its members' components. |
| Lineage.SameLineage | internal/communication/governance/governance.go:50-93 | Two queries that name versions of one component get the same versions, edges and current version. |
| Lineage.LineageIsOfTheAsked | internal/communication/governance/governance.go:102-116 | A record is in the answer if and only if links lead to it from a record that has the query as its version, artifact, message, attempt or task ref. |
| Lineage.AnswerNames | internal/communication/governance/governance.go:84-93 | The current version is one that no other of the answer comes after, and the artifact is that of the first version that has one. |
| Lineage.VersionsAreExact | internal/communication/governance/governance.go:71-85 | The listed versions are exactly the records of the included set, in order of creation and then of ref. |
| Lineage.EdgesAreExact | internal/communication/governance/governance.go:156-187 | The edges are exactly the based-on links of the listed versions, to versions only inside the set, sorted by source, target and relation. |
| Provenance.LinksAreBasedOn | tc-server/internal/application/artifact_service.go:23-51 | In every run, however its versions are listed, refs are not blank or repeated, and two versions are linked exactly when one is based on the other: a lineage is a connected component of the ledger's based-on graph. |
| Sorting.StableSortIsStable | internal/communication/governance/governance.go:76-83 | The stable sort keeps the order of elements that tie. |
| Sorting.StableSortSorts | internal/communication/governance/governance.go:76-83 | The stable sort is a permutation in order, for any strict weak order. |
| EventStream.Sender.Diff | tc-control/internal/api/events.go:94-173 | For each snapshot the five loops send exactly what the specification of the stream gains by it, in order, and the remembered records are the specification's. |
| EventStream.StreamIsFaithful | tc-control/internal/api/events.go:94-173 | Over any sequence of snapshots and any filter, a client that replays the events can place each one, and ends up knowing the state of every message and attempt, and every checkpoint, readback and artifact, that the stream has shown. |
| EventStream.ClientIsCurrent | tc-control/internal/api/events.go:94-173 | After each snapshot the replayed state of every matching message and attempt is the snapshot's own (of the last record, if a ref is repeated), and all matching checkpoints, readbacks and artifacts have been announced. |
| EventContent.EventsShowRecords | tc-control/internal/api/events.go:94-173 | Every event of a stream carries, field by field, a record of some snapshot, one that the task and capability of the client's options ask for. |
| EventStream.LastMessageEvent | tc-control/internal/api/events.go:97-108 | What a replay knows of a message is what its last event said, and an orderly stream has announced it. |
| EventStream.AnnouncedOnce | tc-control/internal/api/events.go:104-171 | Each message, attempt, checkpoint, readback and artifact is announced at most once in the whole stream. |
| EventStream.ParentFirst | tc-control/internal/api/events.go:109-171 | Every event about an attempt or artifact comes after its message's announcement, every checkpoint and readback after its attempt's, every update after the announcement of what it updates. |
| EventStream.RepeatIsSilent | tc-control/internal/api/events.go:97-127 | The same snapshot a second time sends nothing, if and only if its matching records that share a ref agree on the watched fields. |
| Sorting.LastInOrder | tc-control/internal/api/events.go:227-255 | The stable sort by ref keeps which record with a ref is the last. |
| LeaseKeeper.RoundsInTimeIff | tc-worker/internal/runtime/lease_keeper.go:63-80 | The exact bound: with delays up to d each way every refresh arrives inside the lease L that the one before it gave, if and only if 3d <= L + 1 ns and 2d + 1 ms <= L. |
| LeaseKeeper.ThirdsAreEnough | tc-worker/internal/runtime/lease_keeper.go:63-80 | A third of the lease each way is enough from three milliseconds on. |
| LeaseKeeper.LoopIsInTime | tc-worker/internal/runtime/lease_keeper.go:26-46 | However often the loop goes round, each request arrives inside the lease that the one before it obtained. |
| LeaseKeeper.Keep | tc-worker/internal/runtime/lease_keeper.go:26-46 | The loop sends its requests when the schedule says, stops when stopped, and reports the first refusal and nothing else. |
| LeaseKeeper.OnlyRefreshMovesLease | tc-server/internal/application/service.go:504-524 | No service call but an accepted refresh of the attempt itself changes its lease, and none reopens a closed attempt. |
| LeaseKeeper.LeaseNeverLapses | tc-worker/internal/runtime/lease_keeper.go:19-47 | In any run of the server with any other calls interleaved, while a keeper is at work and the delays fit the lease, the attempt is at every point live or closed, and the server refuses a refresh only of a closed attempt. |
| SkillMarkdown.RoundTrip | internal/communication/skills/loader.go:55-71 | For any capabilities whose names stay on one line, over-long and quoted ones included, parsing the generated file gives the fixed fields, the trimmed, unquoted, distinct names up to the first over-long line, and a skill the validator accepts unchanged. |
| SkillMarkdown.CapabilitiesRoundTrip | tc-worker/config.go:344-370 | For names that are trimmed, unquoted and below the line limit the skill has exactly the given capabilities, later duplicates dropped, and the executor hint. |
| SkillMarkdown.CleanIsKept | internal/communication/skills/loader.go:185-189 | Cleaning leaves a value unchanged if and only if it has neither a blank nor a quote at either end. |
| SkillMarkdown.DistinctKeepsEach | internal/communication/skills/loader.go:143-159 | Dropping duplicates keeps every value, each once. |
| SkillMarkdown.DistinctKeepsOrder | internal/communication/skills/loader.go:143-159 | Dropping duplicates keeps the order of first mention. |
| SkillMarkdown.DefaultWorkerSkillMarkdown | tc-worker/config.go:344-370 | The builder writes the front matter, one item line for each name that is not blank after trimming, and the body. |
| SkillMarkdown.PrintedSplits | internal/communication/skills/loader.go:88-103 | Splitting the generated file at its rulers gives back the printed lines and the body, whatever the names are. |
| SkillMarkdown.ParseFrontMatter | internal/communication/skills/loader.go:105-134 | The scanner loop over the lines reads what the specification of a reading says: comments, items under the current key, scalars and bracketed lists. |
| SkillMarkdown.ParseMarkdown | internal/communication/skills/loader.go:55-71 | The parser puts the metadata, the trimmed body and the inferred defaults together as specified. |

## Left out

- Interleavings inside one service call: each call is one step, although the code reads and writes an attempt in separate critical sections.
- Database, transaction and allocator failures, including the fallback ref (tc-server/internal/infrastructure/sqlite/refs.go:40-42), and the encoding of row bodies, taken to be inverse to decoding.
- The delivery adapter (NATS JetStream) in ingress, polling and acknowledgement; the service is modelled without one.
- Refs with blanks around them: refs are taken as already trimmed, so the two dependency checks see the same refs.
- The quality gate's rules: its verdict is a parameter, and the model keeps that a rejected message is not stored. Stored quality decisions are left out.
- Readbacks and artifact finalizations in the ledger; they change no message, attempt or checkpoint.
- Most text fields of requests: whether they are filled in as validation demands is one boolean, `complete`, in each request.
- The SQLite store's methods for endpoints, artifacts, approvals and side effects: their statements are functions in `SqlCalls`, without methods of their own in `SqliteStore.Store`.
- SqlRuns.BackendsAgree: the service over SQLite is the function `SqlCalls.SqlStep` on the tables, not a second class; its writes are the functions that the methods of `SqliteStore.Store` are proved against, its reads are the bodies of the rows.
- Two connections to one database: transactions run one at a time.
- The lineage ref built from the query, and approval chains, a filter and a sort.
- The HTTP and server-sent-event plumbing around the diff; event kinds are constructors where the code has strings.
- LeaseKeeper.Keep: the goroutine's timer and cancellation are its argument, one round at a time; the error it records also cancels the execution, which is not modelled.
- LeaseKeeper.LeaseNeverLapses: server and worker share one clock, and time in transit is a bound on each way.
- SkillMarkdown.RoundTrip: names with a newline inside are outside it, since they add lines of their own to the front matter. Bytes that are not valid UTF-8 do not occur in the model's strings.
- SkillMarkdown.ParseMarkdown: the defaults taken from the file's path are a parameter, and case folding of the approval flag covers ASCII letters.
- Registration and heartbeat fields other than ref, actor, connection state and capability names.
- User interfaces, configuration, executors and log files.
