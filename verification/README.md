# Server Hub: verified models of its delivery, session, alert and agent protocols

Server Hub is a Go server with web and mobile clients. This project models the parts of it whose
correctness depends on many steps working together, in Dafny 4.11, and proves what they guarantee
over every input, every interleaving and every history. `dafny verify dfyconfig.toml` checks the
whole project.

**Notification delivery.** `Incidents` holds the per-incident rules (cooldown, repeat limit, repeat
interval, recovery), `DeliveryTables` what each statement group does to the tables, and
`DeliveryEngine` the dispatcher and the worker as the server has them: a class whose methods update
the tables in place and are proved to compute those functions. On top of them:
- `IncidentRuns`: every history of one dedupe key, claims in commit order with clock readings in any
  order, policy holds, retention pruning of resolved rows;
- `DispatchTransactions`: concurrent dispatches split at their SQL statements, with the row lock, the
  unique key, stale "no row" reads, and aborts anywhere;
- `DeliveryRuns`: workers as a state machine over statements, any number of them, with any clock
  readings, crashes anywhere and, at any time, the boot of an instance that requeues every row in
  `sending`. Over all its runs: `OutboxLifecycle`, `OutboxOwners` (rows and who holds them),
  `DigestConservation` (event counts) and `DigestSummaries` (one summary per batch). One owner per row,
  attempts that fit the status and finality of sent and failed rows hold for every row that no such
  boot has taken from a live worker; after that they do not;
  `RateLimit` and `CircuitBreaker` speak about one worker with a clock that never runs backwards,
  because the rate and breaker checks are check-then-act;
- `DeliveryLaws`: the same rules in the columns of the tables and in plain numbers: what a message
  leaves behind, which events share a batch, what becomes of a claimed row, which rows a drain takes;
- `WorkerRefinement`: the engine's drain, flush and publishing are runs of that machine;
- `Quiescence`: at a fixed clock the worker loop reaches a state with nothing due.

**Sessions.** `RefreshTokens` is the token table and the refresh handler, `RefreshRotation` every
interleaving of refreshes with logins, logouts and role changes. `RefreshClient` is the clients'
single-flight refresh, and `RefreshEndToEnd` one such client against the server, with lost responses,
requests the server finishes after the client gave up, and other devices of the same user.

**Alerts.** `Alerting` says what a sweep rules on each server and condition and defines the read-time
staleness view; `AlertSweep` is the sweep, the heartbeat and metrics updates and the manual resolve as
the server has them; `AlertRuns` interleaves the statements of the sweepers, one per server process,
with everything else that writes the alert table.

**Backup agents.** `AgentRuns` is the run and chunk tables with the agent's requests, `RunHistory` one
run under concurrent claims, reports, stale-run checks and cancels, `ChunkRegistration` concurrent
chunk registrations.

**Docker logs.** `LogFrames` is the header-stripping loop and its exact inverse condition.

Properties that turned out false of the code are kept as concrete counterexamples next to the exact
condition under which they hold:
- digest counts are conserved exactly when no event meets a flushed batch
  (`DigestConservation.CountsAreConserved`), and `DigestConservation.LateAppendIsLost` loses one;
- a run's statuses are allowed transitions exactly while no write arrives on a finished run
  (`RunHistory.HistoryIsPath`), and `RunHistory.LateCancel` is such a write;
- a client's token is live exactly when its session was neither forfeited nor purged, and a request
  is taken for reuse exactly when it presents another token or the session was
  (`RefreshEndToEnd.StoredTokenLives`, `RefreshEndToEnd.ReuseExactly`);
  `RefreshEndToEnd.LostReplyLeadsToReuse` and `RefreshEndToEnd.LostRaceIsReuse` reach the two reuse
  branches from a login;
- a metric alert follows its value exactly when the threshold is positive or no alert was open
  (`Alerting.DisabledThresholdFreezes`); it does not in `Alerting.FrozenAlert` and in the history of
  `AlertSweep.AlertOutlivesItsCause`;
- a sent or failed row is final exactly when no worker still holds it
  (`OutboxLifecycle.FinalUnlessHeld`, `OutboxLifecycle.HeldCanChange`), which is so for every row that no
  requeue has taken from a live worker; `OutboxLifecycle.RequeueReopens` reaches a sent row that reopens;
- sweeps keep at most one alert per server and condition exactly while no insert arrives when one is
  open (`AlertRuns.OneUnlessLate`, `AlertRuns.LateInsertDoubles`), which is so with one server process;
  `AlertRuns.TwoSweepersDouble` has two;
- stripping inverts framing exactly when no frame but the last is empty (`LogFrames.RoundTrip`,
  `LogFrames.EmptyFrameStops`).

Where comments in the source and its code disagree the model follows the code:
- the retry delay is described as exponential plus or minus 25%, but lies in [d/2 + 1 s, d + 1 s);
- a critical incident held by a maintenance window is described as joining the overflow summary, but
  is only counted as suppressed;
- reuse of a refresh token is described as revoking every token of the user, but spares those
  created in the last 30 seconds;
- a log frame with an empty payload ends the stripping, so later headers come out as text.

## Model

| member | source | states |
|---|---|---|
| DeliveryPolicy.LoadPolicy | server/internal/delivery/policy.go:90-127 | Whatever the stored row holds, or without one, the loaded policy has positive cooldowns, repeat interval and budgets and a non-negative repeat limit; a sound row is taken unchanged |
| DeliveryPolicy.LoadedValues | server/internal/delivery/policy.go:71-141 | Each unusable stored value is replaced by its own documented default, the others are kept; without a row all defaults apply |
| DeliveryPolicy.QuietIsCircular | server/internal/delivery/policy.go:241-262 | For every start, end and minute of the day, overnight spans and equal ends included, a minute is quiet exactly when going round the clock from the start reaches it before the end |
| IncidentRuns.FiringIsRemembered | server/internal/delivery/dispatch.go:170-202 | From a firing message until the cycle ends the row says firing and remembers a time no earlier than that message |
| IncidentRuns.Spacing | server/internal/delivery/dispatch.go:154-277 | Two firing messages of one cycle are at least the later request's cooldown and repeat interval apart, whatever the order of the clock readings |
| IncidentRuns.RepeatAccounting | server/internal/delivery/dispatch.go:162-180 | The row says firing exactly when the cycle has a firing message, and `repeat_count` is then the number of those messages minus one |
| IncidentRuns.RepeatCap | server/internal/delivery/dispatch.go:244-298 | With every effective limit at most n a cycle has at most 1 + n firing messages |
| IncidentRuns.LatestIsRemembered | server/internal/delivery/dispatch.go:170-202 | Until the next message of the cycle the row carries the exact time of the latest one |
| IncidentRuns.FiringExactly | server/internal/delivery/dispatch.go:256-298 | A firing claim is a message if and only if it is the first of its cycle, or the cooldown and the repeat interval have passed since the latest one and the cycle has not used up its repeats; a positive value of the request wins over the policy's |
| IncidentRuns.HeldReason | server/internal/delivery/dispatch.go:256-276 | A held firing claim is recorded as out of repeats when the cooldown had passed and they were used up, as too early otherwise |
| IncidentRuns.FirstNotifiedAt | server/internal/delivery/dispatch.go:190-200 | `first_notified_at` tells how the row began: with a message, a policy hold, or a recovery without an incident |
| IncidentRuns.LatestEvent | server/internal/delivery/dispatch.go:170-202 | After each event the row has the claim's severity and state, the message's time, or the suppression's reason |
| IncidentRuns.RecoveryExactly | server/internal/delivery/dispatch.go:168-242 | A recovery message is produced exactly when the request asks for it and the current cycle has a firing message; the policy flag never matters |
| IncidentRuns.CycleHasNotice | server/internal/delivery/dispatch.go:244-298 | A cycle whose count is positive has a firing message with no end of cycle after it |
| IncidentRuns.RecoveryNeedsFiring | server/internal/delivery/dispatch.go:217-242 | Every recovery message follows a firing message of its own cycle, later than every earlier recovery message: at most one recovery per cycle |
| IncidentRuns.CreatedBy | server/internal/delivery/dispatch.go:196-200 | Every stored row has a creating event after which none created it anew |
| IncidentRuns.SuppressionConservation | server/internal/delivery/dispatch.go:81-99 | `suppressed_count` is the number of suppressions on both paths since the row was created |
| DispatchTransactions.StepKeepsInv | server/internal/delivery/dispatch.go:138-299 | Every statement keeps the committed log serial, the lock exclusive, and the pending writes a prefix of the plan of the row that was read |
| DispatchTransactions.CallAlone | server/internal/delivery/dispatch.go:101-115 | A call that nobody disturbs commits, publishes its whole plan on the row it found, and leaves the row of the reference claim |
| DispatchTransactions.ConcurrentDispatchIsSerial | server/internal/delivery/dispatch.go:101-115 | Every interleaving of dispatches of one key equals, in commit order, a serial history: same row, same published writes, each committed call published exactly once |
| DispatchTransactions.AbortLeavesNothing | server/internal/delivery/dispatch.go:101-115 | An aborted call published nothing and has nothing pending |
| DispatchTransactions.ConcurrentSpacing | server/internal/delivery/dispatch.go:256-277 | The spacing bound holds for committed messages of every interleaving |
| DispatchTransactions.PlanPublishes | server/internal/delivery/dispatch.go:204-215 | Performing the planned statements one by one publishes exactly the rows of the notification, one per channel |
| DispatchTransactions.ClaimPerformed | server/internal/delivery/dispatch.go:138-299 | The planned statements and the row write together are the engine's claim |
| DispatchTransactions.ConcurrentTablesAreSerial | server/internal/delivery/dispatch.go:101-115 | The outbox, batch and state tables left by concurrent calls of one key are those of running the engine's claim serially in commit order |
| DeliveryTables.EnqueueCommutes | server/internal/delivery/dispatch.go:204-215 | Outbox inserts and the state write of one transaction do not interfere |
| DeliveryTables.PublishedCommutes | server/internal/delivery/dispatch.go:226-241 | Neither do digest appends: publishing and the state write commute |
| Common.WindowEnd | server/internal/delivery/dispatch.go:322 | A window end is a multiple of the width and lies after its event by at most the width: the end of the aligned window that holds it |
| Common.SameWindow | server/internal/delivery/dispatch.go:322 | Two instants share their window's end exactly when they lie in one aligned window |
| DeliveryLaws.HeldExactly | server/internal/delivery/dispatch.go:81-99 | A request is held exactly during a pause up to its expiry, during maintenance, or in quiet hours unless critical ones pass; the reason is the first that applies |
| DeliveryLaws.QueuedRows | server/internal/delivery/dispatch.go:204-215 | An immediate message or a critical firing becomes one pending row per channel, due at once, and nothing else changes |
| DeliveryLaws.DigestedEvents | server/internal/delivery/dispatch.go:317-359 | Any other message is counted once, for each of its channels, in the batch of its group, that channel and the aligned window that holds it, unless that was flushed; nothing else changes |
| DeliveryLaws.MutedPublishesNothing | server/internal/delivery/dispatch.go:219-277 | A suppressed claim leaves outbox and batches alone, any other publishes; no other key's row changes |
| DeliveryLaws.SameBatch | server/internal/delivery/dispatch.go:318-323 | Two events of a group and channel share a batch exactly when they lie in one aligned window, of 60 minutes when none is set; overflow records likewise with 15 minutes |
| DeliveryLaws.WindowFills | server/internal/delivery/dispatch.go:330-338 | Any number of events of a group and channel within one window, with no flush in between, leave one batch with that many more |
| DeliveryLaws.RowOutcome | server/internal/delivery/worker.go:149-193 | A claimed row is put off until an open breaker closes, put off for 15 minutes when its channel's budget is used up in the trailing hour, and otherwise sent, due again in the retry schedule, or failed after the fifth attempt; only a provider call counts as an attempt |
| DeliveryLaws.RowSideEffects | server/internal/delivery/worker.go:149-236 | It changes no other row, the overflow batch only when over budget, the breaker only after a provider call: cleared by a success, open for five minutes from the fifth failure in a row |
| DeliveryLaws.RetrySchedule | server/internal/delivery/worker.go:196-203 | After the first to fourth failure the wait is at least half of 30, 60, 120 and 240 seconds and a second more |
| DeliveryLaws.RequeueRestores | server/internal/delivery/worker.go:266-282 | A claim undone by a requeue leaves the row as it was, pending again |
| DeliveryLaws.FlushedBatches | server/internal/delivery/worker.go:312-328 | A flush closes its batches with the counts they have and adds one pending row for each on its channel, due at once |
| DeliveryLaws.TakesAll | server/internal/delivery/worker.go:99-103 | The query takes only what is due, at most 25, and all of it when there is no more |
| DeliveryLaws.PutOffReturns | server/internal/delivery/worker.go:99-103 | A row put off by a breaker or the budget is taken by a query at or after its retry time, when at most 25 rows are due then |
| DeliveryTables.Backoff | server/internal/delivery/worker.go:196-203 | For every random draw the delay lies in [d/2 + 1 s, d + 1 s) |
| DeliveryEngine.CleanChannels | server/internal/delivery/dispatch.go:117-126 | The result holds exactly the known channels of the list, once each, in order of first appearance |
| DeliveryEngine.PickEarliest | server/internal/delivery/worker.go:99-103 | The query returns, in due order, a full batch of the earliest due rows, or all of them |
| DeliveryEngine.Engine.Dispatch | server/internal/delivery/dispatch.go:66-115 | A request without key or known channel changes nothing; a gated one is recorded as held with the gate's reason; any other is claimed; exactly one outcome, and the whole new state |
| DeliveryEngine.Engine.TouchSuppressed | server/internal/delivery/dispatch.go:303-314 | A hold creates an unset row or adds one suppression, and never touches `last_state` or the repeat count |
| DeliveryEngine.Engine.ClaimAndEnqueue | server/internal/delivery/dispatch.go:138-299 | The transaction's branches compute the reference decision, the new row and the published rows |
| DeliveryEngine.Engine.ClaimRecovery | server/internal/delivery/dispatch.go:217-242 | The recovery path computes the reference claim |
| DeliveryEngine.Engine.ClaimFiring | server/internal/delivery/dispatch.go:244-298 | The firing path, with its deletion of a resolved row, computes the reference claim |
| DeliveryEngine.Engine.NotifyFiring | server/internal/delivery/dispatch.go:280-298 | Publishing and the row write after that deletion leave what the reference claim leaves |
| DeliveryEngine.Engine.RepeatHold | server/internal/delivery/dispatch.go:256-277 | The three holds are tried in the order that the reference decision demands |
| DeliveryEngine.Engine.Publish | server/internal/delivery/dispatch.go:280-294 | The notification goes to the digest or the outbox, never both |
| DeliveryEngine.Engine.SetState | server/internal/delivery/dispatch.go:170-202 | The row written by the UPDATE or the INSERT, column by column, every other key untouched |
| DeliveryEngine.Engine.EnqueueAll | server/internal/delivery/dispatch.go:204-215 | One pending row per channel, in order |
| DeliveryEngine.Engine.AppendToDigest | server/internal/delivery/dispatch.go:317-359 | One upsert per channel into the window that holds the event |
| DeliveryEngine.Engine.UpsertBatch | server/internal/delivery/dispatch.go:330-338 | New batch, one more in an open batch, no change to a flushed one |
| DeliveryEngine.Engine.ClaimDue | server/internal/delivery/worker.go:93-127 | The earliest of the pending and deferred rows whose retry time has come, and no others, become `sending`; none is left out when there are at most 25 |
| DeliveryEngine.Engine.MarkAll | server/internal/delivery/worker.go:118-122 | Exactly the listed rows change status |
| DeliveryEngine.Engine.CircuitOpen | server/internal/delivery/worker.go:206-213 | The breaker is open exactly when its stored expiry lies ahead |
| DeliveryEngine.Engine.OpenCircuit | server/internal/delivery/worker.go:215-229 | One more failure is counted, and from the fifth on the breaker opens for five minutes |
| DeliveryEngine.Engine.CloseCircuit | server/internal/delivery/worker.go:231-236 | A success clears the channel's breaker |
| DeliveryEngine.Engine.Fail | server/internal/delivery/worker.go:134-147 | A failed attempt is counted and leads to a retry, or to `failed` after the last |
| DeliveryEngine.Engine.DeferOverBudget | server/internal/delivery/worker.go:161-169 | The row waits 15 minutes, no attempt consumed, and the event joins the overflow batch |
| DeliveryEngine.Engine.SendOne | server/internal/delivery/worker.go:133-193 | Breaker, then budget, then provider: the complete effect on the row, the breaker and the overflow batch; it reports failure exactly when the provider was called and failed |
| DeliveryEngine.Engine.Drain | server/internal/delivery/worker.go:73-90 | One clock reading, the earliest due rows, each handled in order; the error reported is that of the first row whose provider call failed |
| DeliveryEngine.Engine.SendAll | server/internal/delivery/worker.go:83-89 | Every claimed row is handled even after a failure, and the first failure is the one reported |
| DeliveryEngine.Engine.RequeueStale | server/internal/delivery/worker.go:268-282 | Exactly the `sending` rows become pending, and their number is returned |
| DeliveryEngine.Engine.FlushDigests | server/internal/delivery/worker.go:285-330 | The earliest open batches whose window has ended are closed, none left out when there are at most 25, and each gets one summary row with the count read |
| DeliveryEngine.Engine.CloseBatches | server/internal/delivery/worker.go:312-316 | Exactly the listed batches become flushed |
| DeliveryEngine.Engine.InsertSummaries | server/internal/delivery/worker.go:320-328 | One pending summary row per batch, in order |
| OutboxLifecycle.StepKeepsInv | server/internal/delivery/worker.go:93-193 | Every statement of any worker, every crash and every requeue keeps all provider calls accounted for, and keeps one owner and attempts in line with the status for each row that no requeue has taken from a live worker |
| OutboxLifecycle.RunKeepsInv | server/internal/delivery/worker.go:93-193 | So does every run, with crashes and requeues anywhere |
| OutboxLifecycle.Lifecycle | server/internal/delivery/worker.go:129-193 | On every row attempts are provider calls (deferral consumes none) and calls are at most attempts plus crashes plus calls in flight; a row that no requeue has taken from a live worker has at most 4 attempts while unfinished, exactly 5 when failed, and one owner at most, while `sending` |
| OutboxLifecycle.FinalUnlessHeld | server/internal/delivery/worker.go:138-146 | No later step of any worker, crash or requeue changes a sent or failed row that nobody holds |
| OutboxLifecycle.TerminalForever | server/internal/delivery/worker.go:138-146 | In particular one that no requeue has taken from a live worker |
| OutboxLifecycle.HeldCanChange | server/internal/delivery/worker.go:138-191 | A sent or failed row that a worker still holds can be changed by that worker: the writes have no status guard |
| OutboxLifecycle.RequeueReopens | server/cmd/server/main.go:86-91 | A run in which an instance boots while another has called the provider: a second call, a `sent` row still held, and a continuation that changes it |
| OutboxOwners.StepKeepsOwners | server/internal/delivery/worker.go:93-193 | Every statement, crash and requeue keeps each `sending` row held or dropped by a crash, and never both for a row that no requeue has taken from a live worker |
| OutboxOwners.SendingIsAccountedFor | server/internal/delivery/worker.go:266-282 | In every run a `sending` row is held by a worker, or a crash dropped it and no requeue has happened since; exactly then, and by one worker at most, for a row that no requeue has taken from a live worker |
| CircuitBreaker.StepKeepsInv | server/internal/delivery/worker.go:206-236 | Every step keeps the stored breaker a summary of the recorded results |
| CircuitBreaker.BreakerHolds | server/internal/delivery/worker.go:149-236 | `consecutive_failures` is the trailing run of failures, `opened_until` is set exactly when it is at least 5, and no provider call on the channel carries a drain time before five minutes after the last of them |
| CircuitBreaker.PutOffOnlyWhileOpen | server/internal/delivery/worker.go:149-155 | A row is put off for the breaker only while the channel's results end in at least five failures, the last less than five minutes ago, and only until those five minutes are over |
| RateLimit.OneSent | server/internal/delivery/worker.go:156-169 | A send leaves every hour-long window that contains it within the budget |
| RateLimit.SlidingWindow | server/internal/delivery/worker.go:156-192 | In every run of one worker every window of 3600 seconds, wherever it ends, holds at most the channel's own budget of rows sent on it |
| RateLimit.PutOffOnlyWhenFull | server/internal/delivery/worker.go:156-169 | A row is put off for the rate only when its channel has had its whole hourly budget sent in the hour that ends with the drain |
| DigestConservation.UpsertCounts | server/internal/delivery/dispatch.go:330-338 | An append is counted exactly when its batch has not been flushed |
| DigestConservation.LandsInOpenBatch | server/internal/delivery/worker.go:252-264 | With one worker and a non-decreasing clock no event or overflow record meets a flushed batch |
| DigestConservation.StepKeepsCount | server/internal/delivery/worker.go:252-264 | Every statement keeps batch counts plus late events equal to the digested events plus overflow records |
| DigestConservation.CountsAreConserved | server/internal/delivery/worker.go:252-330 | In every run of any number of workers, with any clock readings, per channel the batch counts and the events that met a flushed batch add up to the digested events plus overflow records; so the counts are conserved exactly when no event met a flushed batch |
| DigestConservation.OrderedClockConserves | server/internal/delivery/worker.go:252-330 | With one worker and a non-decreasing clock no event is late, so the counts are conserved |
| DigestSummaries.StepKeepsInv | server/internal/delivery/worker.go:285-330 | Every statement of any worker keeps each closed batch with one summary: written, owed by one worker, or lost in a crash |
| DigestSummaries.OneSummaryPerBatch | server/internal/delivery/worker.go:285-330 | In every run of any number of workers, with any clock readings, at most one summary row per batch, with its final count and on its channel; exactly one if and only if the batch is flushed, no worker still owes it and no crash swallowed it |
| DigestConservation.LateAppendIsLost | server/internal/delivery/dispatch.go:330-338 | A dispatch whose clock was read before a flush and that appends after it is counted nowhere |
| WorkerRefinement.RowIsRun | server/internal/delivery/worker.go:133-193 | Handling one claimed row is a run of the worker machine |
| WorkerRefinement.DrainIsRun | server/internal/delivery/worker.go:73-90 | A drain of the engine is a run of the worker machine with the same tables |
| WorkerRefinement.FlushIsRun | server/internal/delivery/worker.go:285-330 | A flush of the engine is a run of the worker machine with the same tables |
| WorkerRefinement.PublishIsRun | server/internal/delivery/dispatch.go:204-215 | What a claim publishes is a run of the worker machine, one step per channel |
| Quiescence.DrainShrinksDue | server/internal/delivery/worker.go:133-203 | At one instant a drain takes exactly the claimed rows out of the due set and makes no batch due |
| Quiescence.FlushShrinksDue | server/internal/delivery/worker.go:285-330 | A flush takes exactly the claimed batches out of the due set |
| Quiescence.Tick | server/internal/delivery/worker.go:40-47 | One turn of the loop decreases (due batches, due rows) lexicographically unless both are empty |
| Quiescence.Settle | server/internal/delivery/worker.go:48-56 | The loop at a fixed clock ends, whatever the provider answers, with every pending or deferred row's retry time and every open batch's window end ahead |
| RefreshTokens.Sessions.IssuePair | server/internal/handlers/auth.go:81-94 | A token never seen before is stored live for the user, everything else unchanged |
| RefreshTokens.Sessions.RevokeAllExceptRecent | server/internal/handlers/auth.go:112-120 | Exactly the user's tokens older than the leeway are revoked |
| RefreshTokens.Sessions.Refresh | server/internal/handlers/auth.go:180-251 | A refresh succeeds exactly for a live, unexpired token of an existing user and then exchanges it; each refusal leaves exactly its own clean-up |
| RefreshRotation.StepKeepsInv | server/internal/handlers/auth.go:180-251 | Every statement keeps live tokens and claims at the tip of their lineage |
| RefreshRotation.RunKeepsInv | server/internal/handlers/auth.go:180-251 | So does every interleaving, with requests dying anywhere |
| RefreshRotation.OneSuccessor | server/internal/handlers/auth.go:224-247 | A token is exchanged at most once in every interleaving |
| RefreshRotation.OneCarrierPerLogin | server/internal/handlers/auth.go:180-251 | Each login has at most one live token or claim in flight, at the tip of its lineage |
| RefreshRotation.SessionsAtMostLogins | server/internal/handlers/auth.go:180-251 | A user's live tokens and claims in flight never outnumber that user's logins |
| RefreshRotation.LiveUntilRevoked | server/internal/handlers/auth.go:97-120 | Over every run a live token is live at the end exactly when no step revoked it: its own use, its user's logout, or a purge that finds it older than the leeway |
| RefreshRotation.PurgeSparesTheWinner | server/internal/handlers/auth.go:233-242 | Over every run after its issue a token survives the purges of race losers that come within 30 seconds, unless some other step revokes it |
| RefreshRotation.ReuseIsPunished | server/internal/handlers/auth.go:202-242 | A request that reads a revoked token or loses the race goes on to a purge that leaves its user no live token older than 30 seconds and touches nobody else's |
| RefreshRotation.GoodForAWeek | server/internal/handlers/auth.go:24-78 | Over every run that leaves it live, a token passes the read for seven days from its issue and is found expired after |
| RefreshRotation.UninterruptedRefresh | server/internal/handlers/auth.go:180-251 | The undisturbed handler is one run of the interleaved steps with the same effect |
| RefreshRotation.UninterruptedRefusal | server/internal/handlers/auth.go:193-223 | So is each of the four refusals: unknown, reused and expired token and a user who is gone |
| RefreshClient.ApiClient.Request | mobile/src/api/client.ts:34-40 | A request goes out once, not yet retried |
| RefreshClient.ApiClient.HandleResponse | mobile/src/api/client.ts:82-104 | A first 401 outside the auth endpoints joins the shared refresh, starting one only when none is in flight; anything else ends the request |
| RefreshClient.ApiClient.Resume | mobile/src/api/client.ts:96-103 | After a successful refresh the request goes out once more, after a failed one it fails |
| RefreshClient.ApiClient.HandleSettled | mobile/src/api/client.ts:60-70 | The rotated token is stored, the promise cleared, and every waiter resumed with the same result |
| RefreshEndToEnd.StepKeepsInv | server/internal/handlers/auth.go:180-251 | Every step of the client, the server and other devices keeps the session's current token live exactly while it was neither forfeited nor purged |
| RefreshEndToEnd.StoredTokenLives | server/internal/handlers/auth.go:202-247 | In every run, between refreshes the client holds a live token exactly when no request it gave up on claimed the session's token and no purge revoked it |
| RefreshEndToEnd.ReuseExactly | server/internal/handlers/auth.go:202-242 | In every run a request enters one of the two reuse branches exactly when the token it presents is not the session's current one or the session was forfeited or purged |
| RefreshEndToEnd.NextRefresh | mobile/src/api/client.ts:46-74 | The next refresh of a client passes the server's read exactly when the session was neither forfeited nor purged, and is taken for reuse otherwise |
| RefreshEndToEnd.RefreshSucceeds | mobile/src/api/client.ts:46-104 | From every moment of every run in which the session was neither forfeited nor purged, an undisturbed refresh sends the request again and leaves the client with the new, live token |
| RefreshEndToEnd.NeverReused | client/src/lib/api.ts:106-137 | Without a lost response and a purge from another device neither reuse branch is taken and every token presented is live, however many requests see 401 together |
| RefreshEndToEnd.SentAtMostTwice | mobile/src/api/client.ts:82-104 | Each original request is sent at most twice, and none waits for a refresh that is not under way, lost responses or not |
| RefreshEndToEnd.CallFate | mobile/src/api/client.ts:82-104 | In every run the state of a request follows from the answers and the refresh it met with: only a first 401 outside the auth endpoints makes it wait, a successful refresh sends it again, anything else ends it |
| RefreshEndToEnd.ResumedIsSent | mobile/src/api/client.ts:96-103 | In every run a request taken up after its refresh is sent a second time when a token came, and fails when none did |
| RefreshEndToEnd.FailsOnlyIf | client/src/lib/api.ts:131-137 | A finished request has failed exactly if it was for an auth endpoint and answered 401, was answered 401 again after its second send, or its refresh brought no token |
| RefreshEndToEnd.LostReplyLeadsToReuse | server/internal/handlers/auth.go:202-211 | From every fresh login there is a run in which the reply with the rotated token is lost and the next 401 leads to the first reuse branch |
| RefreshEndToEnd.LostRaceIsReuse | server/internal/handlers/auth.go:233-242 | And one in which a request the client gave up on loses the race for the claim, the second reuse branch, with the session unharmed |
| Alerting.TimeoutsAgree | server/internal/alerting/alerting.go:37-42 | The sweep's threshold and the read side's timeout agree for every configured value, fallback included |
| Alerting.ServerRow.ApplyStaleness | server/internal/handlers/servers.go:40-63 | The row is rewritten in place to what a read must report, heartbeat untouched |
| Alerting.ViewUnchangedBySweep | server/internal/handlers/servers.go:37-63 | Status and agent status reported at or after a sweep are the same with and without it, for every row and timeout |
| Alerting.ReadMeans | server/internal/handlers/servers.go:30-63 | A server reads ONLINE exactly when stored so with a heartbeat within the timeout, three minutes when less than 30 seconds are configured; otherwise a stored ONLINE reads OFFLINE and DISCONNECTED |
| Alerting.SweepStoresTheView | server/internal/alerting/alerting.go:66-84 | The sweep stores what reads already show at every clock reading later than the timeout after the zero time; in general exactly when the row is not ONLINE with a zero heartbeat that the cutoff has not passed |
| Alerting.HeartbeatWindow | server/internal/handlers/servers.go:286-305 | After a heartbeat the server reads ONLINE for exactly the configured time, sweeps in between or not |
| Alerting.ResolveEffect | server/internal/alerting/alerting.go:219-234 | Resolving a pair closes it and no other |
| Alerting.ResolveKeepsOne | server/internal/alerting/alerting.go:219-234 | Resolving keeps at most one sweep alert per pair |
| Alerting.ResolveRowKeepsOne | server/internal/handlers/servers.go:547-573 | So does a manual resolve |
| Alerting.InsertEffect | server/internal/alerting/alerting.go:187-190 | An insert opens its pair and no other |
| Alerting.InsertKeepsOne | server/internal/alerting/alerting.go:187-190 | An insert for a pair without a sweep alert keeps at most one |
| Alerting.OfflineSplit | server/internal/alerting/alerting.go:66-106 | The servers that raise and those still ONLINE afterwards are disjoint and together are exactly those the sweep rules on |
| Alerting.SettledMeans | server/internal/alerting/alerting.go:108-177 | In a settled state a fresh server's metric alert is open exactly when its value exceeds the positive threshold, a stale server has none, an ONLINE server has no offline alert |
| Alerting.DisabledThresholdFreezes | server/internal/alerting/alerting.go:138-141 | After a sweep a fresh server's metric alert is open exactly for a value above a positive threshold, if and only if the threshold is positive or no alert was open |
| Alerting.FrozenAlert | server/internal/alerting/alerting.go:138-141 | A settled state with an open alert whose value is far below any threshold |
| AlertSweep.AlertOutlivesItsCause | server/internal/alerting/alerting.go:138-157 | Uploads and sweeps after which an alert is still open although its value fell from 95 to 5, its threshold being disabled in between |
| Alerting.Newest | server/internal/alerting/alerting.go:112-114 | The snapshot the sweep reads is one of the server's and none is later |
| Alerting.NewestDecides | server/internal/alerting/alerting.go:161-163 | Some snapshot is recent exactly when the latest is, so one snapshot decides both queries |
| Alerting.UploadedLatest | server/internal/handlers/servers.go:339-348 | An upload becomes the latest snapshot unless a later one is stored, and touches no other server's |
| AlertSweep.Monitor.Heartbeat | server/internal/handlers/servers.go:286-305 | An existing server becomes ONLINE and CONNECTED with the new heartbeat; others are untouched |
| AlertSweep.Monitor.IngestMetrics | server/internal/handlers/servers.go:308-388 | The snapshot is added to the server's and the upload counts as a heartbeat |
| AlertSweep.Monitor.Resolve | server/internal/handlers/servers.go:547-573 | Exactly the named row is closed; a missing row is reported and a closed one left alone |
| AlertSweep.Monitor.FireAlert | server/internal/alerting/alerting.go:179-215 | Opens the pair and no other; inserts one row and notifies exactly when none was open |
| AlertSweep.Monitor.ResolveAlert | server/internal/alerting/alerting.go:219-234 | Closes the pair and no other and reports whether one was open |
| AlertSweep.Monitor.RaisePair | server/internal/alerting/alerting.go:179-215 | Raising one more pair extends the account of the sweep, with one notification exactly when it was newly opened |
| AlertSweep.Monitor.ClearPair | server/internal/alerting/alerting.go:219-234 | Clearing one more pair extends the account of the sweep |
| AlertSweep.Monitor.RaiseStale | server/internal/alerting/alerting.go:66-84 | Exactly the stale ONLINE servers go OFFLINE and DISCONNECTED, and each raises its alert |
| AlertSweep.Monitor.ClearOnline | server/internal/alerting/alerting.go:86-105 | Servers still ONLINE clear their offline alert |
| AlertSweep.Monitor.CheckOffline | server/internal/alerting/alerting.go:66-106 | The offline half of the sweep carries out exactly the offline rulings |
| AlertSweep.Monitor.CheckThreshold | server/internal/alerting/alerting.go:138-157 | Skip, raise or clear as value and threshold demand |
| AlertSweep.Monitor.JudgeServer | server/internal/alerting/alerting.go:127-157 | The three values of a fresh snapshot are each dealt with as ruled |
| AlertSweep.Monitor.ClearServer | server/internal/alerting/alerting.go:168-176 | The three alerts of a stale snapshot are cleared |
| AlertSweep.Monitor.JudgeFresh | server/internal/alerting/alerting.go:127-157 | Exactly the metric pairs of fresh snapshots are judged |
| AlertSweep.Monitor.ClearExpired | server/internal/alerting/alerting.go:161-176 | Exactly the metric pairs of stale snapshots are cleared |
| AlertSweep.Monitor.CheckMetricThresholds | server/internal/alerting/alerting.go:108-177 | The metric half of the sweep carries out exactly the metric rulings |
| Alerting.Compose | server/internal/alerting/alerting.go:60-64 | Two parts of a sweep on different pairs make one, with no pair notified twice |
| AlertSweep.Monitor.RunChecks | server/internal/alerting/alerting.go:60-64 | One undisturbed sweep, with a clock reading for each half, leaves every pair as ruled, notifies once for each newly opened pair and never otherwise, reaches a settled state, and leaves a settled state alone: a second sweep at those readings changes and notifies nothing |
| AlertSweep.SweepAccount | server/internal/alerting/alerting.go:60-64 | The two halves together have the effect of the whole sweep |
| AlertSweep.MetricsAfterSweep | server/internal/alerting/alerting.go:108-177 | After a sweep a server whose latest snapshot is older than the timeout has no metric alert; any other server's CPU, RAM and disk alerts are open exactly for values above their positive thresholds |
| AlertSweep.ServersAfterSweep | server/internal/alerting/alerting.go:66-106 | After a sweep an ONLINE server without a heartbeat within the timeout is OFFLINE with its alert open, one with such a heartbeat has none, and any other is as it was |
| AlertSweep.SweepSettles | server/internal/alerting/alerting.go:60-64 | Rulings made before the sweep still hold for the servers it rewrote |
| AlertRuns.StepKeepsInv | server/internal/alerting/alerting.go:179-234 | Every statement of any sweeper, agent, webhook, user or deletion keeps earlier alerts of a pair closed, as long as no insert was late |
| AlertRuns.RunKeepsInv | server/internal/alerting/alerting.go:179-234 | So does every interleaving |
| AlertRuns.WebhookInsertKeepsInv | server/internal/handlers/monitoring.go:553-577 | Webhook inserts never count as sweep alerts |
| AlertRuns.OneUnlessLate | server/internal/alerting/alerting.go:179-193 | In every interleaving of any number of sweepers at most one TRIGGERED row with empty source per server and condition, as long as no insert arrived when one was open |
| AlertRuns.LateInsertDoubles | server/internal/alerting/alerting.go:179-193 | An insert that arrives then leaves two |
| AlertRuns.TwoSweepersDouble | server/internal/alerting/alerting.go:179-193 | Two server processes can count before either inserts |
| AlertRuns.StepKeepsSole | server/internal/alerting/alerting.go:44-58 | With one server process the sweeper is about to insert only for pairs without an open sweep alert |
| AlertRuns.AlwaysOneSweepAlert | server/internal/alerting/alerting.go:44-58 | With one server process no insert is late, so at most one TRIGGERED row with empty source per server and condition in every interleaving with heartbeats, metrics, webhooks, resolves and deletions |
| AlertRuns.FireAlone | server/internal/alerting/alerting.go:179-193 | An undisturbed raise is the count and the insert, with the rows the sweep's own method leaves |
| AlertRuns.RaisedAgainOnlyAfterClose | server/internal/alerting/alerting.go:179-234 | As long as no insert was late, of all sweep alerts raised for a pair only the last can be open |
| AgentRuns.Registry.UpdateIf | server/internal/handlers/vgbackup_agent.go:777-779 | The guarded update applies exactly when the status is still the one read |
| AgentRuns.Registry.ClaimRun | server/internal/handlers/vgbackup_agent.go:564-616 | 404 exactly for a run that is not the agent's, 409 exactly for one that is not pending, otherwise the run starts, or fails with its time, duration and reason when credentials cannot be decrypted |
| AgentRuns.Registry.UpdateStatus | server/internal/handlers/vgbackup_agent.go:666-803 | 200 exactly for a well-formed report of the agent's run that is an allowed move with a storable key or repeats the status; the whole new row; COMPLETED verifies the run's unjudged artifacts; a finished run never changes |
| AgentRuns.Registry.RegisterChunk | server/internal/handlers/vgbackup_agent.go:899-972 | The first checksum is stored, an equal one confirmed, a different one refused, and nothing stored is overwritten |
| AgentRuns.Transitions | server/internal/vgbackup/models.go:586-599 | The eleven moves a run can make, one by one |
| AgentRuns.RunTimes | server/internal/handlers/vgbackup_agent.go:564-757 | A run claimed and later reported COMPLETED or FAILED shows both times and the whole seconds between them, whatever was reported in between |
| AgentRuns.ReportedColumns | server/internal/handlers/vgbackup_agent.go:724-772 | A move keeps every reported column, the key only when one was reported; a repeated status keeps the counters of a run in flight only |
| AgentRuns.VerifiedMeans | server/internal/handlers/vgbackup_agent.go:793-803 | COMPLETED leaves no artifact of its run unjudged, revises no judgement and touches no other run's |
| RunHistory.StepKeepsInv | server/internal/handlers/vgbackup_agent.go:724-788 | Every read and write of any request keeps the status history a chained path with each write attributed to its request |
| RunHistory.RunKeepsInv | server/internal/handlers/vgbackup_agent.go:724-788 | So does every interleaving |
| RunHistory.LeftOnce | server/internal/handlers/vgbackup_agent.go:564-588 | Every active status is left at most once, so each edge is won by one request and a run is claimed at most once |
| RunHistory.HistoryIsPath | server/internal/vgbackup/models.go:586-599 | The statuses form one path from PENDING; a write on it is an allowed transition exactly when the run was not finished, and guarded writes always are |
| RunHistory.ShortPath | server/internal/vgbackup/models.go:586-599 | Without a write on a finished run the history is no longer than the rank of its status, at most four |
| RunHistory.CompletedPassedEveryStage | server/internal/vgbackup/models.go:586-599 | In every run COMPLETED is reached only by the fourth write, after PENDING, RUNNING, UPLOADING and VERIFYING in this order, and nothing fails before it has started |
| RunHistory.AnswersAgree | server/internal/handlers/vgbackup_agent.go:774-788 | An answered request made exactly the write recorded with its answer, and none when it was refused |
| RunHistory.FinishedStays | server/internal/vgbackup/scheduler.go:335-380 | A finished run never becomes active again |
| RunHistory.LateCancel | server/internal/handlers/vgbackup_mgmt.go:1908-1925 | The unguarded cancel can overwrite COMPLETED with CANCELLED |
| RunHistory.ReportRuns | server/internal/handlers/vgbackup_agent.go:724-788 | An undisturbed report of an allowed transition moves the run |
| RunHistory.ClaimAlone | server/internal/handlers/vgbackup_agent.go:564-616 | An undisturbed claim is a run of the interleaved steps with the outcome of the sequential request |
| RunHistory.ReportAlone | server/internal/handlers/vgbackup_agent.go:724-788 | So is an undisturbed report, moving, echoed or refused |
| RunHistory.StaleAlone | server/internal/vgbackup/scheduler.go:335-380 | The undisturbed check of a silent agent ends a run in flight as CANCELLED when a cancel had been requested, as FAILED otherwise |
| RunHistory.CancelAlone | server/internal/handlers/vgbackup_mgmt.go:1908-1925 | An undisturbed cancel ends a pending run, leaves one in flight to its agent, and is refused for a completed or failed one |
| ChunkRegistration.StepKeepsInv | server/internal/handlers/vgbackup_agent.go:939-972 | Every statement keeps the answers in line with the stored row and never replaces a checksum |
| ChunkRegistration.FirstWriterWins | server/internal/handlers/vgbackup_agent.go:939-972 | A stored checksum is never replaced in any interleaving |
| ChunkRegistration.ChunkAgreement | server/internal/handlers/vgbackup_agent.go:939-972 | For one artifact and index every 200 or 201 carried the stored checksum, every 409 another, at most one request got 201, and none 500 |
| ChunkRegistration.RegisterAlone | server/internal/handlers/vgbackup_agent.go:939-972 | An undisturbed registration is a run of the interleaved steps with the outcome of the sequential request |
| LogFrames.SizeRoundTrip | server/internal/handlers/containers.go:194 | The four size bytes read big-endian give back every 32-bit length |
| LogFrames.NextSlice | server/internal/handlers/containers.go:192-206 | One turn of the loop emits the next slice of the rest, and stops exactly where the definition does |
| LogFrames.StripDockerHeader | server/internal/handlers/containers.go:188-208 | The loop computes the recursive definition of a stripped buffer |
| LogFrames.StripFrames | server/internal/handlers/containers.go:192-206 | Whole nonempty frames are unwrapped and what follows is treated on its own |
| LogFrames.EmptyFrameStops | server/internal/handlers/containers.go:196-199 | Everything behind an empty frame comes out raw |
| LogFrames.RoundTrip | server/internal/handlers/containers.go:188-208 | Stripping an encoded list of frames gives the concatenated payloads exactly when no frame but the last is empty |
| LogFrames.CutBuffer | server/internal/handlers/containers.go:196-199 | A buffer cut inside a payload gives the matching prefix; cut inside a header, the bare header bytes |

## Left out

- SQL text, gorm, connection handling and failing statements: statements are atomic and succeed, or the transaction aborts.
- Titles, bodies, truncation, group ids, labels and the text of digests: they decide nothing here; a digest group is an opaque string.
- Parsing of channel names, severities, clock times and time zones: channels arrive as known or unknown, local minutes of the day as a number.
- Maintenance window lookup and quiet hours loading: the gates are inputs of a dispatch.
- Sub-microsecond clock readings and the overflow of 64-bit durations for absurdly large configured seconds.
- Retention of outbox rows, batches, backup runs and their chunks: only pruning of resolved state rows is modelled.
- Rate budget and breaker with several worker processes: their checks are then out of date when acted on, and no bound is claimed.
- Provider results lost in a crash before the breaker is written: the breaker counts recorded results.
- SMTP, Telegram, Docker and Prometheus calls: a provider send is an arbitrary success or failure.
- Token minting, hashing, JWTs, cookies and password checks: a new token is a number not used before, existing users are a set.
- Expiry, logout, password change and role change in the end-to-end client model; `RefreshRotation` covers them on the server.
- Ties between snapshots with one timestamp: the later upload counts as the latest; the query leaves them open.
- AlertRuns.WebhookInsertKeepsInv: treats a webhook insert as always possible, without the look-up by fingerprint before it, so it covers more interleavings than the handler has.
- The byte counters, paths and keys of a run under interleaved requests: `RunHistory` follows the status column only.
- The rules engine, health checks, telemetry, restores, scheduling of backups, transfers and all screens.
